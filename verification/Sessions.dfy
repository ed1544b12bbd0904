/**
 * The registry of ACP sessions, which admits one prompt at a time, and the routing of frames from
 * the daemon (crates/visp-acp/src/sessions.rs).
 */
module Sessions {
  import opened Collections
  import opened Translation

  datatype PromptBusy = SessionBusy | AnotherInFlight

  datatype Admission = Admitted | Busy(reason: PromptBusy)

  /** Whether a prompt of `id` may begin. */
  function Admit(sessions: map<string, string>, inflight: Option<string>, id: string): Admission {
    if id !in sessions then Busy(SessionBusy)
    else match inflight
      case None => Admitted
      case Some(other) => if other == id then Busy(SessionBusy) else Busy(AnotherInFlight)
  }

  function Released(inflight: Option<string>, id: string): Option<string> {
    if inflight == Some(id) then None else inflight
  }

  datatype Route = Pump(frame: Frame) | Bridge(frame: Frame) | Drop

  /** Queries always get through; everything else only while a prompt is in flight. */
  function RouteOf(f: Frame, inflight: Option<string>): Route {
    if f.UserQuery? then Bridge(f) else if inflight.None? then Drop else Pump(f)
  }

  class SessionRegistry {
    var sessions: map<string, string>   // ACP session to daemon session
    var inflight: Option<string>

    constructor ()
      ensures sessions == map[] && inflight == None
    {
      sessions, inflight := map[], None;
    }

    method Register(acp: string, visp: string)
      modifies this
      ensures sessions == old(sessions)[acp := visp] && inflight == old(inflight)
    {
      sessions := sessions[acp := visp];
    }

    method TryBeginPrompt(id: string) returns (answer: Admission)
      modifies this
      ensures answer == Admit(old(sessions), old(inflight), id)
      ensures inflight == (if answer == Admitted then Some(id) else old(inflight)) && sessions == old(sessions)
    {
      if id !in sessions {
        return Busy(SessionBusy);
      }
      match inflight
      case Some(other) =>
        answer := if other == id then Busy(SessionBusy) else Busy(AnotherInFlight);
      case None =>
        inflight := Some(id);
        answer := Admitted;
    }

    method EndPrompt(id: string)
      modifies this
      ensures inflight == Released(old(inflight), id) && sessions == old(sessions)
    {
      if inflight == Some(id) {
        inflight := None;
      }
    }

    method Remove(id: string) returns (existed: bool)
      modifies this
      ensures inflight == Released(old(inflight), id) && sessions == old(sessions) - {id}
      ensures existed == (id in old(sessions))
    {
      if inflight == Some(id) {
        inflight := None;
      }
      existed := id in sessions;
      sessions := sessions - {id};
    }
  }
}
