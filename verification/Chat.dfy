/** The client half of the protocol (client/session.go, client/pumps.go) on values: the
    request loop of the start-up, then the read pump. The class in Session.dfy is the
    imperative form. */
module Chat {
  import opened Ids
  import opened Frames

  /** runChat's stages: dialled; NEW sent; outbox settled; SUB sent; chatting; over. */
  datatype Phase = Dialled | WaitNewOk | HaveOutbox | WaitSubOk | Chatting | Ended

  datatype Line = Line(mid: string, text: string)

  /** recvd: how many of the server's frames have been read. up: commands not yet read by
      the server, of which the first `wired` are written and the rest wait in the client's
      own channel. pending: an ACK the read pump is blocked on. replyAt is history: which
      of the server's frames answers this session's SUB. */
  datatype Session = Session(phase: Phase, outbox: string, inbox: string, recvd: nat,
                             seen: set<string>, shown: seq<Line>,
                             pending: Option<Envelope>, up: seq<Envelope>, wired: nat,
                             replyAt: Option<nat>)

  const NEW_SESSION := Session(Dialled, "", "", 0, {}, [], None, [], 0, None)

  const SEND_CAPACITY := 16

  predicate StartingUp(s: Session) {
    s.phase == WaitNewOk || s.phase == WaitSubOk
  }

  /** request: an error ends the session, the wanted reply ends the wait, anything else is
      discarded. */
  function Requested(s: Session, f: Frame): Session {
    if f.Error? then s.(phase := Ended)
    else if s.phase == WaitNewOk && f.NewOk? then
      if f.qid == "" then s.(phase := Ended) else s.(phase := HaveOutbox, outbox := f.qid)
    else if s.phase == WaitSubOk && f.SubOk? then s.(phase := Chatting)
    else s
  }

  /** readPump: a DELIVER not seen before is marked seen and, if it decodes, displayed and
      acknowledged. */
  function Pumped(s: Session, f: Frame): Session {
    if !f.Deliver? || f.mid in s.seen then s
    else
      var s' := s.(seen := s.seen + {f.mid});
      if !f.payload.Chat? then s'
      else s'.(shown := s.shown + [Line(f.mid, f.payload.text)], pending := Some(AckCommand(f.qid, f.mid)))
  }

  /** The next frame is read; while an ACK is pending the read pump is blocked. */
  function Received(s: Session, f: Frame): Session {
    (if s.phase == Chatting then Pumped(s, f) else Requested(s, f)).(recvd := s.recvd + 1)
  }

  predicate HasRoom(s: Session) {
    |s.up| < s.wired + SEND_CAPACITY
  }

  // ---- what the session writes ----

  function Asked(s: Session, want: Phase, env: Envelope): Session {
    s.(phase := want, up := s.up + [env], wired := |s.up| + 1)
  }

  function AckPushed(s: Session): Session
    requires s.pending.Some?
  {
    s.(up := s.up + [s.pending.value], pending := None)
  }

  function Typed(s: Session, mid: string, text: string): Session {
    if HasRoom(s) then s.(up := s.up + [SendCommand(s.outbox, mid, text)]) else s
  }

  /** The server has taken the first command off the wire. */
  function Taken(s: Session): Session
    requires 0 < s.wired && s.up != []
  {
    s.(up := s.up[1..], wired := s.wired - 1)
  }

  /** It has; the channel held `before` frames, and holds `after` of them now. */
  function Heard(s: Session, before: nat, after: nat): Session
    requires 0 < s.wired && s.up != []
  {
    if s.up[0].kind == SUB && before < after then Taken(s).(replyAt := Some(before)) else Taken(s)
  }

  /** Whatever the server sends, a session never displays one message id twice. */
  lemma PumpedShowsOnce(s: Session, f: Frame)
    requires forall i, j :: 0 <= i < j < |s.shown| ==> s.shown[i].mid != s.shown[j].mid
    requires forall i :: 0 <= i < |s.shown| ==> s.shown[i].mid in s.seen
    ensures var s' := Pumped(s, f);
      && (forall i, j :: 0 <= i < j < |s'.shown| ==> s'.shown[i].mid != s'.shown[j].mid)
      && (forall i :: 0 <= i < |s'.shown| ==> s'.shown[i].mid in s'.seen)
      && s.shown <= s'.shown
  {
  }
}
