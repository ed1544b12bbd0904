/**
 * What each message to the ACP agent comes to, field by field (crates/visp-acp/src/agent.rs and
 * sessions.rs): which prompts are admitted, how a pump takes a frame, and whose queries are cancelled.
 */
module TurnOutcomes {
  import opened Collections
  import opened Translation
  import opened Sessions
  import opened Turns
  import opened Sending

  // ---- Prompts ----

  /** Prompts are admitted one at a time, for registered sessions; a refusal tells whose prompt is in flight. */
  lemma AdmitIff(sessions: map<string, string>, inflight: Option<string>, id: string)
    ensures Admit(sessions, inflight, id) == Admitted <==> id in sessions && inflight == None
    ensures Admit(sessions, inflight, id) == Busy(SessionBusy) <==> id !in sessions || inflight == Some(id)
    ensures Admit(sessions, inflight, id) == Busy(AnotherInFlight) <==>
            id in sessions && inflight.Some? && inflight.value != id
  {
  }

  predicate AllText(blocks: seq<Block>) {
    forall b :: b in blocks ==> b.Text?
  }

  predicate SomeText(blocks: seq<Block>) {
    exists b :: b in blocks && b.Text? && b.text != ""
  }

  lemma {:induction false} JoinedIsEmpty(blocks: seq<Block>)
    ensures Joined(blocks) != "" <==> SomeText(blocks)
  {
    if blocks != [] {
      var init, last := blocks[..|blocks| - 1], blocks[|blocks| - 1];
      JoinedIsEmpty(init);
      assert forall b :: b in blocks <==> b in init || b == last;
    }
  }

  /** A prompt is usable exactly when it is text throughout and not empty. */
  lemma PromptTextIff(blocks: seq<Block>)
    ensures PromptText(blocks).Some? <==> AllText(blocks) && SomeText(blocks)
    ensures PromptText(blocks).Some? ==> PromptText(blocks).value == Joined(blocks)
  {
    JoinedIsEmpty(blocks);
    hide SomeText;
  }

  /** The texts of the blocks one after the other. */
  lemma {:induction false} JoinedConcat(a: seq<Block>, b: seq<Block>)
    ensures Joined(a + b) == Joined(a) + Joined(b)
    ensures forall text :: Joined([Text(text)]) == text
  {
    forall text
      ensures Joined([Text(text)]) == text
    {
      assert [Text(text)][..0] == [];
    }
    if b == [] {
      assert a + b == a;
    } else {
      assert (a + b)[..|a + b| - 1] == a + b[..|b| - 1];
      JoinedConcat(a, b[..|b| - 1]);
    }
  }

  /**
   * An admitted prompt is in flight, and if it is usable and gets through, a pump starts on it with a
   * fresh translator, a fresh token and no cancel pending. Any other prompt changes nothing.
   */
  lemma PromptOutcome(form: bool, s: State, id: string, blocks: seq<Block>, delivered: bool)
    ensures var r := Next(form, s, Prompt(id, blocks, delivered));
            if id !in s.sessions || s.inflight.Some? then r == s
            else if !AllText(blocks) || !SomeText(blocks) || !delivered then r == s.(inflight := Some(id))
            else
              r == s.(inflight := Some(id), token := s.token + 1, cancelRequested := false,
                      pumps := s.pumps + [PumpTask(id, Ctx(id, 0, None), s.token + 1, [], [])])
  {
    PromptTextIff(blocks);
    AdmitIff(s.sessions, s.inflight, id);
    hide PromptText, AllText, SomeText, Admit;
  }

  /** Sessions are registered under their own id; a cancel marks the current token, if there is one. */
  lemma RequestOutcomes(form: bool, s: State, id: string, f: Frame)
    ensures Next(form, s, NewSession(id)) == s.(sessions := s.sessions[id := id])
    ensures Next(form, s, CancelRequest(id))
         == s.(cancelRequested := true, cancelled := s.cancelled + if s.token == 0 then {} else {s.token})
    ensures Next(form, s, Arrive(f))
         == if s.closed then s else s.(inbound := s.inbound + [f], arrived := s.arrived + [f])
    ensures Next(form, s, Close) == s.(closed := true)
  {
    assert s.cancelled + {} == s.cancelled;
  }

  /** A prompt is released by its own session only. */
  lemma ReleasedIff(inflight: Option<string>, id: string)
    ensures Released(inflight, id) == None <==> inflight == None || inflight == Some(id)
    ensures Released(inflight, id) != None ==> Released(inflight, id) == inflight
  {
  }

  // ---- Frames ----

  /** Only frames of which nobody is in need are dropped: queries never are. */
  lemma RouteIff(f: Frame, inflight: Option<string>)
    ensures RouteOf(f, inflight) == Drop <==> !f.UserQuery? && inflight == None
    ensures RouteOf(f, inflight) != Drop ==> RouteOf(f, inflight).frame == f
    ensures RouteOf(f, inflight).Bridge? <==> f.UserQuery?
  {
  }

  /** The reason a frame gives a turn of the session to end with. */
  ghost function ReasonFrom(sid: string, f: Frame): Option<StopReason> {
    match f
    case Done(session) => if session == sid then Some(EndTurn) else None
    case Error(session, _, _) =>
      if session != sid then None else if SaysCancelled(f) then Some(Cancelled) else Some(Refusal)
    case _ => None
  }

  lemma ReasonIs(sid: string, f: Frame)
    ensures Ruling(sid, f) == ReasonFrom(sid, f)
  {
    RulingIs(sid, f);
    hide IsCancellation, SaysCancelled;
  }

  /** The pump after it has received one more frame. */
  ghost function Fed(form: bool, p: PumpTask, f: Frame, a: Answer): PumpTask {
    PumpTask(p.sid, After(p.ctx, f), p.token, p.received + [Received(f, a)],
             p.effects + SentFor(form, p.sid, "msg-" + Decimal(After(p.ctx, f).seqNo), f, a))
  }

  /**
   * A pump takes the first waiting frame, with the client's answer unless its turn has been cancelled,
   * and sends what the frame calls for; the session's own Done or Error ends the turn and releases the
   * prompt.
   */
  lemma TakeOutcome(form: bool, s: State, answer: Answer)
    requires TurnInv(form, s) && |s.pumps| == 1 && s.inbound != []
    ensures var p, f := s.pumps[0], s.inbound[0];
            var next := Fed(form, p, f, if p.token in s.cancelled then Interrupted else answer);
            var reason := ReasonFrom(p.sid, f);
            Next(form, s, Poll(0, answer)) ==
              if reason.None? then s.(inbound := s.inbound[1..], pumps := [next])
              else s.(inbound := s.inbound[1..], pumps := [], inflight := None,
                      turns := s.turns + [Turn(p.sid, next.received, next.effects, reason, ByFrame)])
  {
    hide *;
    var p, f := s.pumps[0], s.inbound[0];
    PumpParent(form, s);
    PollTakes(form, s, answer);
    DispatchShape(form, s, answer);
    VerdictIsRuling(p.ctx, f);
    ReasonIs(p.sid, f);
    FedIs(form, p, f, if p.token in s.cancelled then Interrupted else answer);
  }

  lemma PollTakes(form: bool, s: State, answer: Answer)
    requires |s.pumps| == 1 && s.inbound != []
    ensures Next(form, s, Poll(0, answer)) == Dispatch(form, s, 0, answer)
  {
  }

  /** With nothing waiting a turn is refused on a closed stream, and goes on otherwise. */
  lemma IdleOutcome(form: bool, s: State, answer: Answer)
    requires TurnInv(form, s) && |s.pumps| == 1 && s.inbound == []
    ensures var p := s.pumps[0];
            Next(form, s, Poll(0, answer)) ==
              if !s.closed then s
              else s.(pumps := [], inflight := None,
                      turns := s.turns + [Turn(p.sid, p.received, p.effects, Some(Refusal), ByClose)])
  {
    PumpParent(form, s);
    assert s.pumps[..0] + s.pumps[0 + 1..] == [];
    hide TurnInv, Dispatch;
  }

  lemma FedIs(form: bool, p: PumpTask, f: Frame, a: Answer)
    requires p.ctx.parent == p.sid
    ensures Advanced(form, p, Received(f, a)) == Fed(form, p, f, a)
    ensures Fed(form, p, f, a).sid == p.sid
  {
    FrameSends(form, p.ctx, f, a);
    hide Emitted, After, Delivered, SentFor;
  }

  lemma PumpParent(form: bool, s: State)
    requires TurnInv(form, s) && |s.pumps| == 1
    ensures s.pumps[0].ctx.parent == s.pumps[0].sid && s.inflight == Some(s.pumps[0].sid)
  {
    SameParent(s.pumps[0].sid, Frames(s.pumps[0].received));
  }

  /**
   * When only the first `sent` of the messages for a frame can be sent the pump is gone: the turn has
   * sent just these, there is no answer, and the prompt stays in flight.
   */
  lemma FailOutcome(form: bool, s: State, answer: Answer, sent: nat)
    requires TurnInv(form, s) && |s.pumps| == 1
    ensures var p, r := s.pumps[0], Next(form, s, Break(0, answer, sent));
            if s.inbound == [] then r == s
            else
              var f, a := s.inbound[0], if p.token in s.cancelled then Interrupted else answer;
              var out := SentFor(form, p.sid, "msg-" + Decimal(After(p.ctx, f).seqNo), f, a);
              if sent >= |out| then r == s
              else r == s.(inbound := s.inbound[1..], pumps := [],
                           turns := s.turns + [Turn(p.sid, p.received + [Received(f, a)], p.effects + out[..sent],
                                                    None, ByFailure)])
  {
    hide *;
    PumpParent(form, s);
    BreakIs(form, s, answer, sent);
    if s.inbound != [] {
      var p, f := s.pumps[0], s.inbound[0];
      OutgoingIs(form, s, answer);
      FrameSends(form, p.ctx, f, if p.token in s.cancelled then Interrupted else answer);
      NumberNamed(After(p.ctx, f).seqNo);
      if sent < |Outgoing(form, s, 0, answer)| {
        FailShape(form, s, answer, sent);
      }
    }
  }

  lemma NumberNamed(n: nat)
    ensures MessageName(n) == "msg-" + Decimal(n)
  {
  }

  lemma BreakIs(form: bool, s: State, answer: Answer, sent: nat)
    requires |s.pumps| == 1
    ensures Next(form, s, Break(0, answer, sent))
         == if s.inbound != [] && sent < |Outgoing(form, s, 0, answer)| then Fail(form, s, 0, answer, sent) else s
  {
    hide Outgoing, Fail;
  }

  lemma OutgoingIs(form: bool, s: State, answer: Answer)
    requires |s.pumps| == 1 && s.inbound != [] && s.inflight.Some?
    ensures var p := s.pumps[0];
            Outgoing(form, s, 0, answer)
            == Delivered(form, Emitted(p.ctx, s.inbound[0]), if p.token in s.cancelled then Interrupted else answer)
  {
  }

  /** After the cancel window a turn is given up as cancelled, if nothing waits and the stream is open. */
  lemma TimeOutOutcome(form: bool, s: State)
    requires TurnInv(form, s) && |s.pumps| == 1
    ensures var p, r := s.pumps[0], Next(form, s, TimeOut(0));
            if s.inbound == [] && !s.closed && s.cancelRequested then
              r == s.(pumps := [], inflight := None,
                      turns := s.turns + [Turn(p.sid, p.received, p.effects, Some(Cancelled), ByTimeout)])
            else r == s
  {
    PumpParent(form, s);
    assert s.pumps[..0] + s.pumps[0 + 1..] == [];
    hide TurnInv;
  }

  // ---- Whose queries are cancelled ----

  /** The pump at work holds the newest token, which is cancelled exactly when a cancel is pending. */
  ghost predicate TokensOk(s: State) {
    && (forall p :: p in s.pumps ==> p.token == s.token && s.token > 0)
    && (forall c :: c in s.cancelled ==> c <= s.token)
    && (s.token > 0 ==> (s.token in s.cancelled <==> s.cancelRequested))
  }

  lemma TokensStep(form: bool, s: State, m: Message)
    requires TurnInv(form, s) && TokensOk(s)
    ensures TokensOk(Next(form, s, m))
  {
    hide *;
    PumpInFlight(form, s);
    match m
    case Prompt(id, blocks, delivered) =>
      PromptTokens(form, s, id, blocks, delivered);
    case Poll(i, answer) =>
      PollTokens(form, s, i, answer);
    case Break(i, answer, sent) =>
      FailTokens(form, s, i, answer, sent);
    case _ =>
      OtherTokens(form, s, m);
  }

  lemma PumpInFlight(form: bool, s: State)
    requires TurnInv(form, s)
    ensures |s.pumps| <= 1 && (s.pumps != [] ==> s.inflight == Some(s.pumps[0].sid))
  {
  }

  lemma PromptTokens(form: bool, s: State, id: string, blocks: seq<Block>, delivered: bool)
    requires TokensOk(s) && (s.pumps != [] ==> s.inflight.Some?)
    ensures TokensOk(Next(form, s, Prompt(id, blocks, delivered)))
  {
    hide PromptText;
  }

  lemma PollTokens(form: bool, s: State, i: nat, answer: Answer)
    requires TokensOk(s) && |s.pumps| <= 1 && (s.pumps != [] ==> s.inflight == Some(s.pumps[0].sid))
    ensures TokensOk(Next(form, s, Poll(i, answer)))
  {
    hide TokensOk, Dispatch, Emitted, Verdict;
    if i < |s.pumps| && s.inbound != [] {
      DispatchShape(form, s, answer);
    }
    SameTokens(s, Next(form, s, Poll(i, answer)));
  }

  lemma OtherTokens(form: bool, s: State, m: Message)
    requires TokensOk(s) && !m.Prompt? && !m.Poll? && !m.Break?
    ensures TokensOk(Next(form, s, m))
  {
    hide TokensOk;
    if m.CancelRequest? {
      CancelTokens(s, Next(form, s, m));
    } else {
      SameTokens(s, Next(form, s, m));
    }
  }

  lemma CancelTokens(s: State, r: State)
    requires TokensOk(s) && r.pumps == s.pumps && r.token == s.token && r.cancelRequested
    requires r.cancelled == if s.token == 0 then s.cancelled else s.cancelled + {s.token}
    ensures TokensOk(r)
  {
  }

  lemma SameTokens(s: State, r: State)
    requires TokensOk(s) && r.token == s.token && r.cancelled == s.cancelled && r.cancelRequested == s.cancelRequested
    requires forall p :: p in r.pumps ==> exists q :: q in s.pumps && q.token == p.token
    ensures TokensOk(r)
  {
  }

  lemma FailTokens(form: bool, s: State, i: nat, answer: Answer, sent: nat)
    requires TokensOk(s) && |s.pumps| <= 1
    ensures TokensOk(Next(form, s, Break(i, answer, sent)))
  {
    hide Outgoing;
  }

  lemma {:induction false} RunKeepsTokens(form: bool, ss: seq<State>, ms: seq<Message>, j: nat)
    requires Run(form, ss, ms) && j <= |ms|
    ensures TokensOk(ss[j])
  {
    hide Next, TurnInv, TokensOk;
    if j > 0 {
      RunKeepsTokens(form, ss, ms, j - 1);
      RunKeepsInv(form, ss, ms, j - 1);
      TokensStep(form, ss[j - 1], ms[j - 1]);
    } else {
      assert TokensOk(INITIAL) by {
        InitialTokens();
      }
    }
  }

  lemma InitialTokens()
    ensures TokensOk(INITIAL)
  {
  }

  /**
   * In every run the pump at work does not wait for the client's answers exactly when some cancel
   * request came since it started.
   */
  lemma CancelledIff(form: bool, ss: seq<State>, ms: seq<Message>, j: nat)
    requires Run(form, ss, ms) && j <= |ms| && ss[j].pumps != []
    ensures ss[j].pumps[0].token in ss[j].cancelled <==> exists i :: CancelSince(ss, ms, i, j)
  {
    RunKeepsTokens(form, ss, ms, j);
    CancelPendingIff(form, ss, ms, j);
    assert ss[j].pumps[0] in ss[j].pumps;
    hide CancelSince;
  }
}
