/** Runs from the start that reach the cases in which the ACP agent falls short (crates/visp-acp/src/agent.rs). */
module TurnExamples {
  import opened Collections
  import opened Translation
  import opened Turns

  lemma Prompted(form: bool, s: State, id: string, text: string)
    requires s.inflight == None && id in s.sessions && s.pumps == [] && text != ""
    ensures Next(form, s, Prompt(id, [Text(text)], true)) ==
            s.(inflight := Some(id), pumps := [PumpTask(id, Fresh(id), s.token + 1, [], [])], token := s.token + 1,
              cancelRequested := false)
  {
    assert [Text(text)][..0] == [];
    assert Joined([Text(text)]) == "" + text && "" + text == text;
    assert forall b :: b in [Text(text)] ==> b == Text(text);
    assert PromptText([Text(text)]) == Some(text);
  }

  // ---- A prompt without text ----

  /** Opening a session and sending it an empty prompt is enough to get stuck for good. */
  lemma EmptyPromptSticks(form: bool) returns (ss: seq<State>)
    ensures Run(form, ss, [NewSession("a"), Prompt("a", [], true)]) && Wedged(ss[2])
  {
    var s1 := Next(form, INITIAL, NewSession("a"));
    assert PromptText([]) == None;
    ss := [INITIAL, s1, Next(form, s1, Prompt("a", [], true))];
  }

  // ---- A Done that comes too late ----

  function LateMessages(): seq<Message> {
    [NewSession("a"), Prompt("a", [Text("one")], true), CancelRequest("a"), TimeOut(0), Arrive(Done("a")),
     Prompt("a", [Text("two")], true), Poll(0, Interrupted)]
  }

  /**
   * The first turn is given up before its Done arrives. That Done, which came before the second
   * prompt, ends the second turn as if it were complete.
   */
  lemma LateDoneEndsNextTurn(form: bool) returns (ss: seq<State>)
    ensures Run(form, ss, LateMessages())
    ensures ss[4].turns == [Turn("a", [], [], Some(Cancelled), ByTimeout)] && ss[5].inbound == [Done("a")]
    ensures ss[7].turns == ss[4].turns + [Turn("a", [Received(Done("a"), Interrupted)], [], Some(EndTurn), ByFrame)]
    ensures ss[7].pumps == [] && ss[7].inflight == None
  {
    hide BeginPrompt, PromptText, FinishPump, Dispatch, Emitted, After, Delivered, Verdict, Outgoing;
    var ms := LateMessages();
    var s1 := Next(form, INITIAL, ms[0]);
    Prompted(form, s1, "a", "one");
    var s2 := Next(form, s1, ms[1]);
    var s3 := Next(form, s2, ms[2]);
    FinishShape(s3, Cancelled, ByTimeout);
    var s4 := Next(form, s3, ms[3]);
    var s5 := Next(form, s4, ms[4]);
    Prompted(form, s5, "a", "two");
    var s6 := Next(form, s5, ms[5]);
    DispatchShape(form, s6, Interrupted);
    DoneEnds(form, Fresh("a"));
    var s7 := Next(form, s6, ms[6]);
    var next := Advanced(form, s6.pumps[0], Received(Done("a"), Interrupted));
    assert next.received == [Received(Done("a"), Interrupted)] && next.effects == [];
    ss := [INITIAL, s1, s2, s3, s4, s5, s6, s7];
  }

  lemma DoneEnds(form: bool, c: Ctx)
    ensures Verdict(Emitted(c, Done(c.parent))) == Some(EndTurn)
    ensures forall a :: Delivered(form, Emitted(c, Done(c.parent)), a) == []
  {
  }

  // ---- A cancel for another session ----

  function OtherCancelMessages(): seq<Message> {
    [NewSession("a"), NewSession("b"), Prompt("a", [Text("one")], true), CancelRequest("b"), TimeOut(0)]
  }

  /** A cancel that names session b gives up the turn of session a. */
  lemma OtherCancelEndsTurn(form: bool) returns (ss: seq<State>)
    ensures Run(form, ss, OtherCancelMessages())
    ensures ss[3].pumps != [] && ss[3].pumps[0].sid == "a"
    ensures ss[5].turns == [Turn("a", [], [], Some(Cancelled), ByTimeout)]
  {
    hide BeginPrompt, PromptText, FinishPump;
    var ms := OtherCancelMessages();
    var s1 := Next(form, INITIAL, ms[0]);
    var s2 := Next(form, s1, ms[1]);
    Prompted(form, s2, "a", "one");
    var s3 := Next(form, s2, ms[2]);
    var s4 := Next(form, s3, ms[3]);
    FinishShape(s4, Cancelled, ByTimeout);
    ss := [INITIAL, s1, s2, s3, s4, Next(form, s4, ms[4])];
  }
}
