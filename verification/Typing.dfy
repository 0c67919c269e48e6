/** From the keyboard to the screen: with shipped clients only, every line displayed was typed,
    word for word, by a session whose outbox is the queue the displaying session reads. */
module Typing {
  import opened Ids
  import opened Frames
  import opened Relay
  import opened Chat
  import opened World
  import ServeProofs
  import Guarantees
  import EndToEnd
  import Ledger

  /** Among the moves of past, session d typed this message. */
  ghost predicate WasTyped(past: seq<Move>, d: Conn, mid: string, payload: Payload) {
    payload.Chat? && Type(d, mid, payload.text) in past
  }

  /** The session has had its chance to type; its outbox is settled. */
  predicate Spoke(s: Session) {
    s.phase == Chatting || s.phase == Ended
  }

  /** Every SEND on its way was typed, to the outbox of its session. */
  ghost predicate SaysWhatWasTyped(s: Session, c: Conn, past: seq<Move>) {
    && (s.pending.Some? ==> s.pending.value.kind == ACK)
    && forall i :: 0 <= i < |s.up| && s.up[i].kind == SEND ==>
         Spoke(s) && s.up[i].qid == s.outbox && WasTyped(past, c, s.up[i].mid, s.up[i].payload)
  }

  /** This message was typed by some session with outbox qid. */
  ghost predicate HasAuthor(sessions: seq<Session>, past: seq<Move>, qid: string, mid: string, payload: Payload) {
    exists d: Conn ::
      d < |sessions| && Spoke(sessions[d]) && sessions[d].outbox == qid && WasTyped(past, d, mid, payload)
  }

  ghost predicate LogHasAuthors(log: seq<Ledger.Acceptance>, sessions: seq<Session>, past: seq<Move>) {
    forall n :: 0 <= n < |log| ==> HasAuthor(sessions, past, log[n].qid, log[n].mid, log[n].payload)
  }

  ghost predicate Authored(w: World, past: seq<Move>) {
    && (forall c: Conn :: c < |w.sessions| ==> SaysWhatWasTyped(w.sessions[c], c, past))
    && LogHasAuthors(w.p.hub.vault.log, w.sessions, past)
  }

  // ---- sessions ----

  /** A session that has spoken keeps its outbox. */
  ghost predicate Continues(sessions: seq<Session>, sessions': seq<Session>) {
    && |sessions| <= |sessions'|
    && forall d :: 0 <= d < |sessions| && Spoke(sessions[d]) ==>
         Spoke(sessions'[d]) && sessions'[d].outbox == sessions[d].outbox
  }

  lemma MoveContinues(w: World, m: Move)
    requires Allowed(w, m)
    ensures Continues(w.sessions, Moved(w, m).sessions)
  {
  }

  lemma AuthorsStay(log: seq<Ledger.Acceptance>, sessions: seq<Session>, sessions': seq<Session>, past: seq<Move>,
                    m: Move)
    requires LogHasAuthors(log, sessions, past) && Continues(sessions, sessions')
    ensures LogHasAuthors(log, sessions', past + [m])
  {
    forall n | 0 <= n < |log| ensures HasAuthor(sessions', past + [m], log[n].qid, log[n].mid, log[n].payload) {
      assert HasAuthor(sessions, past, log[n].qid, log[n].mid, log[n].payload);
      var d: Conn :| d < |sessions| && Spoke(sessions[d]) && sessions[d].outbox == log[n].qid
        && WasTyped(past, d, log[n].mid, log[n].payload);
      assert d < |sessions'| && WasTyped(past + [m], d, log[n].mid, log[n].payload);
    }
  }

  /** What move m may do to session c: read, lose its first command, or gain one, and a SEND
      only by typing it. */
  ghost predicate Proceeds(s: Session, s': Session, c: Conn, m: Move) {
    && (Spoke(s) ==> Spoke(s') && s'.outbox == s.outbox)
    && (s'.pending.Some? ==> s'.pending.value.kind == ACK)
    && (|| s'.up == s.up
        || (s.up != [] && s'.up == s.up[1..])
        || exists env :: s'.up == s.up + [env] && May(s', env, c, m))
  }

  ghost predicate May(s: Session, env: Envelope, c: Conn, m: Move) {
    env.kind == SEND ==>
      Spoke(s) && env.qid == s.outbox && env.payload.Chat? && m == Type(c, env.mid, env.payload.text)
  }

  lemma SessionProceeds(w: World, m: Move, c: Conn)
    requires Allowed(w, m) && c < |w.sessions|
    requires w.sessions[c].pending.Some? ==> w.sessions[c].pending.value.kind == ACK
    ensures c < |Moved(w, m).sessions| && Proceeds(w.sessions[c], Moved(w, m).sessions[c], c, m)
  {
    var s, s' := w.sessions[c], Moved(w, m).sessions[c];
    if !m.Dial? && !m.Server? && m.c == c {
      match m
      case AskNew(_) => assert s'.up == s.up + [NewCommand()] && May(s', NewCommand(), c, m);
      case AskSub(_, qid) => assert s'.up == s.up + [SubCommand(qid)] && May(s', SubCommand(qid), c, m);
      case PushAck(_) => assert s'.up == s.up + [s.pending.value] && May(s', s.pending.value, c, m);
      case Type(_, mid, text) =>
        assert May(s', SendCommand(s.outbox, mid, text), c, m);
      case _ =>
    }
  }

  lemma ProceedingSays(s: Session, s': Session, c: Conn, m: Move, past: seq<Move>)
    requires Proceeds(s, s', c, m) && SaysWhatWasTyped(s, c, past)
    ensures SaysWhatWasTyped(s', c, past + [m])
  {
    forall i | 0 <= i < |s'.up| && s'.up[i].kind == SEND
      ensures Spoke(s') && s'.up[i].qid == s'.outbox && WasTyped(past + [m], c, s'.up[i].mid, s'.up[i].payload)
    {
      if s'.up == s.up || i < |s.up| == |s'.up| - 1 {
        assert s'.up[i] == s.up[i];
      } else if s.up != [] && s'.up == s.up[1..] {
        assert s'.up[i] == s.up[i + 1];
      }
    }
  }

  lemma SessionsSay(w: World, m: Move, past: seq<Move>, c: Conn)
    requires Allowed(w, m) && c < |Moved(w, m).sessions|
    requires forall d: Conn :: d < |w.sessions| ==> SaysWhatWasTyped(w.sessions[d], d, past)
    ensures SaysWhatWasTyped(Moved(w, m).sessions[c], c, past + [m])
  {
    if c < |w.sessions| {
      assert SaysWhatWasTyped(w.sessions[c], c, past);
      SessionProceeds(w, m, c);
      ProceedingSays(w.sessions[c], Moved(w, m).sessions[c], c, m, past);
    }
  }

  // ---- the log ----

  /** What a command of the shipped client adds to the log. */
  ghost predicate LogsAtMost(v: Vault, v': Vault, env: Envelope) {
    v'.log == v.log ||
    (env.kind == SEND && |v'.log| == |v.log| + 1 && v.log < v'.log
     && var a := v'.log[|v.log|]; a.qid == env.qid && a.mid == env.mid && a.payload == env.payload)
  }

  lemma ReadLogs(h: Hub, c: Conn, env: Envelope, now: int, o: Oracle)
    requires Indexed(h) && c < |h.chans| && (env.kind == SEND ==> env.mid != "")
    ensures LogsAtMost(h.vault, Read(h, c, Wire(env), now, o).hub.vault, env)
  {
    match env.kind
    case SUB => SubStores(h, c, env.qid, now, o);
    case SEND => SendStores(h, c, env, now, o);
    case _ =>
  }

  lemma BetweenLogs(h: Hub, c: Conn, env: Envelope, now: int, o: Oracle, i: nat)
    requires Indexed(h) && c < |h.chans| && (env.kind == SEND ==> env.mid != "") && i < |Between(h, c, env, now, o)|
    ensures LogsAtMost(h.vault, Between(h, c, env, now, o)[i].vault, env)
  {
    if i > 0 {
      match env.kind
      case SUB => SubBetweenAt(h, c, env, now, o, i);
      case SEND => SendBetweenAt(h, c, env, now, o, i);
      case _ =>
    }
  }

  /** The command a move has the server read. */
  function Commanded(w: World, m: Move): Option<Envelope> {
    if (m.Serve? || m.DieServing?) && m.c < |w.sessions| && w.sessions[m.c].up != [] then Some(w.sessions[m.c].up[0])
    else None
  }

  lemma MoveLogs(w: World, m: Move)
    requires WorldInv(w) && Allowed(w, m)
    ensures var v, v' := w.p.hub.vault, Moved(w, m).p.hub.vault;
      v'.log == v.log || (Commanded(w, m).Some? && LogsAtMost(v, v', Commanded(w, m).value))
  {
    match m
    case Serve(c, o) =>
      FirstIsNamed(w, c);
      ReadLogs(w.p.hub, c, w.sessions[c].up[0], w.p.now, o);
    case DieServing(c, o, stage) =>
      FirstIsNamed(w, c);
      StageLogs(w.p.hub, c, w.sessions[c].up[0], w.p.now, o, stage);
    case Server(s) => Guarantees.LedgerMovesOnlySo(w.p, s);
    case _ =>
  }

  lemma StageLogs(h: Hub, c: Conn, env: Envelope, now: int, o: Oracle, i: nat)
    requires Indexed(h) && c < |h.chans| && (env.kind == SEND ==> env.mid != "") && i < |Stages(h, c, env, now, o)|
    ensures LogsAtMost(h.vault, Stages(h, c, env, now, o)[i].vault, env)
  {
    if i < |Between(h, c, env, now, o)| {
      BetweenLogs(h, c, env, now, o, i);
    } else {
      ReadLogs(h, c, env, now, o);
    }
  }

  lemma FirstIsNamed(w: World, c: Conn)
    requires WorldInv(w) && c < |w.sessions| && c in w.p.readers && w.sessions[c].up != []
    ensures w.sessions[c].up[0].kind == SEND ==> w.sessions[c].up[0].mid != ""
  {
    ServeProofs.FirstCommand(w, c);
  }

  // ---- runs ----

  lemma MoveKeepsAuthors(w: World, m: Move, past: seq<Move>)
    requires WorldInv(w) && Allowed(w, m) && Authored(w, past)
    ensures Authored(Moved(w, m), past + [m])
  {
    var w' := Moved(w, m);
    forall c: Conn | c < |w'.sessions| ensures SaysWhatWasTyped(w'.sessions[c], c, past + [m]) {
      SessionsSay(w, m, past, c);
    }
    MoveContinues(w, m);
    AuthorsStay(w.p.hub.vault.log, w.sessions, w'.sessions, past, m);
    MoveLogs(w, m);
    if w'.p.hub.vault.log != w.p.hub.vault.log {
      assert SaysWhatWasTyped(w.sessions[m.c], m.c, past);
      NewestHasAuthor(w.p.hub.vault, w'.p.hub.vault, w.sessions[m.c], w'.sessions, m.c, past, m);
    }
  }

  lemma NewestHasAuthor(v: Vault, v': Vault, s: Session, sessions': seq<Session>, c: Conn, past: seq<Move>, m: Move)
    requires s.up != [] && LogsAtMost(v, v', s.up[0]) && v'.log != v.log && SaysWhatWasTyped(s, c, past)
    requires LogHasAuthors(v.log, sessions', past + [m])
    requires c < |sessions'| && (Spoke(s) ==> Spoke(sessions'[c]) && sessions'[c].outbox == s.outbox)
    ensures LogHasAuthors(v'.log, sessions', past + [m])
  {
    var n, env := |v.log|, s.up[0];
    assert WasTyped(past + [m], c, env.mid, env.payload) by { assert WasTyped(past, c, env.mid, env.payload); }
    assert HasAuthor(sessions', past + [m], v'.log[n].qid, v'.log[n].mid, v'.log[n].payload);
    forall k | 0 <= k < |v'.log|
      ensures HasAuthor(sessions', past + [m], v'.log[k].qid, v'.log[k].mid, v'.log[k].payload)
    {
      assert k < n ==> v'.log[k] == v.log[k];
    }
  }

  lemma {:induction false} MovesKeepAuthors(w: World, past: seq<Move>, ms: seq<Move>, w': World)
    requires WorldInv(w) && Authored(w, past) && Moves(w, ms, w')
    ensures Authored(w', past + ms)
    decreases ms
  {
    if ms == [] {
      assert past + ms == past;
    } else {
      MoveKeepsAuthors(w, ms[0], past);
      EndToEnd.MoveKeeps(w, ms[0]);
      MovesKeepAuthors(Moved(w, ms[0]), past + [ms[0]], ms[1..], w');
      assert past + [ms[0]] + ms[1..] == past + ms;
    }
  }

  /** Whatever else happens, every line on a screen was typed with this id and text, in a
      session that sends to the queue the screen reads. */
  lemma EveryLineShownWasTyped(ms: seq<Move>, w: World, c: Conn, i: nat)
    requires Moves(GENESIS, ms, w) && c < |w.sessions| && i < |w.sessions[c].shown|
    ensures var s := w.sessions[c]; HasAuthor(w.sessions, ms, s.inbox, s.shown[i].mid, Chat(s.shown[i].text))
  {
    AcceptedHaveAuthors(ms, w);
    EndToEnd.SessionOrder(w, c);
    var l := w.sessions[c].shown[i];
    assert EndToEnd.IsLineOf(w.p.hub.vault, l, w.sessions[c].inbox, w.p.hub.vault.number[l.mid]);
  }

  /** And what was accepted was typed, too. */
  lemma AcceptedHaveAuthors(ms: seq<Move>, w: World)
    requires Moves(GENESIS, ms, w)
    ensures LogHasAuthors(w.p.hub.vault.log, w.sessions, ms)
  {
    EndToEnd.GenesisIsSound();
    MovesKeepAuthors(GENESIS, [], ms, w);
    assert [] + ms == ms;
  }
}
