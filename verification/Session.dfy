/** The shipped client in its own form (client/session.go, client/pumps.go): an object with
    the request loop of its start-up, the read pump and the keyboard loop. Its abstract
    value is a Chat.Session; each turn of a loop is a run of World's moves. */
module SessionClass {
  import opened Ids
  import opened Frames
  import opened Chat
  import World
  import opened WorldProofs
  import Relay

  // ---- what the loops compute ----

  /** The client's write pump puts up to k waiting commands on the wire. */
  function WireSome(s: Chat.Session, k: nat): (s': Chat.Session)
    requires s.wired <= |s.up|
    ensures s'.wired <= |s'.up|
  {
    s.(wired := if s.wired + k <= |s.up| then s.wired + k else |s.up|)
  }

  /** The request loop: read until it is answered, or refused, or the frames give out. */
  function Answered(s: Chat.Session, frames: seq<Frame>): Chat.Session
    decreases frames
  {
    if !StartingUp(s) then s
    else if frames == [] then s.(phase := Ended)
    else Answered(Received(s, frames[0]), frames[1..])
  }

  predicate Wanted(phase: Phase, f: Frame) {
    (phase == WaitNewOk && f.NewOk?) || (phase == WaitSubOk && f.SubOk?)
  }

  /** The first frame that ends the wait has index i. */
  predicate Decides(phase: Phase, frames: seq<Frame>, i: int) {
    && 0 <= i < |frames| && (Wanted(phase, frames[i]) || frames[i].Error?)
    && forall j :: 0 <= j < i ==> !Wanted(phase, frames[j]) && !frames[j].Error?
  }

  /** The wait ends well exactly when the first frame that is either an error or of the
      wanted type is of the wanted type, and does not name an empty queue. All before it is
      swallowed, nothing after it is read. */
  lemma {:induction false} RequestVerdict(s: Chat.Session, frames: seq<Frame>)
    requires StartingUp(s)
    ensures var s' := Answered(s, frames);
      && s' == s.(phase := s'.phase, outbox := s'.outbox, recvd := s'.recvd)
      && (s'.phase == Ended || s'.phase == if s.phase == WaitNewOk then HaveOutbox else Chatting)
      && (s'.phase != HaveOutbox ==> s'.outbox == s.outbox)
      && (s'.phase != Ended <==>
          exists i :: Decides(s.phase, frames, i) && Wanted(s.phase, frames[i]) && frames[i] != NewOk(""))
      && (forall i :: Decides(s.phase, frames, i) ==>
          (s'.recvd == s.recvd + i + 1 && (s'.phase == HaveOutbox ==> frames[i] == NewOk(s'.outbox))))
    decreases frames
  {
    if frames != [] {
      var s1 := Received(s, frames[0]);
      if StartingUp(s1) {
        RequestVerdict(s1, frames[1..]);
        assert !Decides(s.phase, frames, 0);
        forall i: nat ensures Decides(s.phase, frames, i + 1) <==> Decides(s.phase, frames[1..], i) {
          assert i < |frames[1..]| ==> frames[1..][i] == frames[i + 1];
          if Decides(s.phase, frames[1..], i) {
            forall j | 0 <= j < i + 1 ensures !Wanted(s.phase, frames[j]) && !frames[j].Error? {
              assert j > 0 ==> frames[j] == frames[1..][j - 1];
            }
          }
          if Decides(s.phase, frames, i + 1) {
            forall j | 0 <= j < i ensures !Wanted(s.phase, frames[1..][j]) && !frames[1..][j].Error? {
              assert frames[1..][j] == frames[j + 1];
            }
          }
        }
      } else {
        assert Decides(s.phase, frames, 0);
      }
    }
  }

  /** One turn of the read pump. The ACK is pushed blocking: when the channel is full, the
      pump waits until the write pump has made room. */
  function PumpedOnce(s: Chat.Session, f: Frame, k: nat): Chat.Session
    requires s.phase == Chatting && s.wired <= |s.up|
  {
    var s1 := WireSome(Received(s, f), k);
    if s1.pending.None? then s1 else Pushed(s1)
  }

  function Pushed(s: Chat.Session): Chat.Session
    requires s.pending.Some? && s.wired <= |s.up|
  {
    var s1 := if HasRoom(s) then s else WireSome(s, 1);
    AckPushed(s1)
  }

  predicate IsChat(f: Frame) {
    f.Deliver? && f.payload.Chat?
  }

  type Letter = f: Frame | IsChat(f) witness Deliver("", "", Chat(""))

  function Now(seen: set<string>, f: Frame): seq<Letter> {
    if IsChat(f) && f.mid !in seen then [f] else []
  }

  function SeenAfter(seen: set<string>, f: Frame): set<string> {
    if f.Deliver? then seen + {f.mid} else seen
  }

  /** The deliveries a read pump that has seen `seen` shows: of each message id the first,
      if it can be decoded. */
  function News(seen: set<string>, frames: seq<Frame>): seq<Letter>
    decreases frames
  {
    if frames == [] then [] else Now(seen, frames[0]) + News(SeenAfter(seen, frames[0]), frames[1..])
  }

  function LineOf(f: Letter): Line
  {
    Line(f.mid, f.payload.text)
  }

  function AckOf(f: Letter): Envelope
  {
    Envelope(ACK, f.qid, f.mid, Raw("{}"))
  }

  function LinesOf(news: seq<Letter>): seq<Line>
  {
    seq(|news|, i requires 0 <= i < |news| => LineOf(news[i]))
  }

  function AcksOf(news: seq<Letter>): seq<Envelope>
  {
    seq(|news|, i requires 0 <= i < |news| => AckOf(news[i]))
  }

  /** Frame i is decodable, of an unseen id, and the first delivery of that id. */
  predicate First(seen: set<string>, frames: seq<Frame>, i: int) {
    && 0 <= i < |frames| && IsChat(frames[i]) && frames[i].mid !in seen
    && forall j :: 0 <= j < i ==> !frames[j].Deliver? || frames[j].mid != frames[i].mid
  }

  lemma FirstInRest(seen: set<string>, frames: seq<Frame>, i: nat)
    requires frames != []
    ensures First(SeenAfter(seen, frames[0]), frames[1..], i) <==> First(seen, frames, i + 1)
  {
    assert i < |frames[1..]| ==> frames[1..][i] == frames[i + 1];
    if i < |frames[1..]| && IsChat(frames[i + 1]) {
      assert forall j :: 0 <= j < i ==> frames[1..][j] == frames[j + 1];
      assert forall j :: 0 < j < i + 1 ==> frames[j] == frames[1..][j - 1];
    }
  }

  /** News are exactly the first deliveries of unseen ids that can be decoded... */
  lemma {:induction false} NewsAreFirsts(seen: set<string>, frames: seq<Frame>, f: Frame)
    ensures f in News(seen, frames) <==> exists i :: First(seen, frames, i) && frames[i] == f
    decreases frames
  {
    if frames != [] {
      var seen' := SeenAfter(seen, frames[0]);
      NewsAreFirsts(seen', frames[1..], f);
      forall i: nat ensures First(seen', frames[1..], i) <==> First(seen, frames, i + 1) {
        FirstInRest(seen, frames, i);
      }
      if i :| First(seen', frames[1..], i) && frames[1..][i] == f {
        assert First(seen, frames, i + 1) && frames[i + 1] == f;
      }
      if i :| First(seen, frames, i) && frames[i] == f {
        assert i > 0 ==> First(seen', frames[1..], i - 1) && frames[1..][i - 1] == f;
      }
    }
  }

  predicate Distinct(news: seq<Letter>)
  {
    forall i, j :: 0 <= i < j < |news| ==> news[i].mid != news[j].mid
  }

  /** ... each of which is news once. */
  lemma {:induction false} NewsAreNew(seen: set<string>, frames: seq<Frame>)
    ensures forall f :: f in News(seen, frames) ==> f.mid !in seen
    ensures Distinct(News(seen, frames))
    decreases frames
  {
    if frames != [] { NewsAreNew(SeenAfter(seen, frames[0]), frames[1..]); }
  }

  // ---- a loop's turns together ----

  /** The read pump after its first n frames; ks: what the write pump took meanwhile. */
  function PumpedAll(s: Chat.Session, frames: seq<Frame>, ks: seq<nat>): (s': Chat.Session)
    requires s.phase == Chatting && s.pending.None? && s.wired <= |s.up| && |ks| == |frames|
    ensures s'.phase == Chatting && s'.pending.None? && s'.wired <= |s'.up|
    decreases frames
  {
    if frames == [] then s
    else PumpedAll(PumpedOnce(s, frames[0], ks[0]), frames[1..], ks[1..])
  }

  /** The screen gains exactly the news, in order, and exactly one ACK for each is pushed,
      in the same order: none is lost to a full channel. */
  lemma {:induction false} PumpShowsAndAcksTheNews(s: Chat.Session, frames: seq<Frame>, ks: seq<nat>)
    requires s.phase == Chatting && s.pending.None? && s.wired <= |s.up| && |ks| == |frames|
    ensures var s', news := PumpedAll(s, frames, ks), News(s.seen, frames);
      && s'.shown == s.shown + LinesOf(news) && s'.up == s.up + AcksOf(news)
      && s'.recvd == s.recvd + |frames|
    decreases frames
  {
    if frames != [] {
      var s1, now := PumpedOnce(s, frames[0], ks[0]), Now(s.seen, frames[0]);
      TurnShowsAndAcks(s, frames[0], ks[0]);
      PumpShowsAndAcksTheNews(s1, frames[1..], ks[1..]);
      var rest := News(s1.seen, frames[1..]);
      assert News(s.seen, frames) == now + rest;
      OneAfterTheOther(s.shown, s.up, now, rest);
    }
  }

  lemma OneAfterTheOther(shown: seq<Line>, up: seq<Envelope>, a: seq<Letter>, b: seq<Letter>)
    ensures shown + LinesOf(a + b) == shown + LinesOf(a) + LinesOf(b)
    ensures up + AcksOf(a + b) == up + AcksOf(a) + AcksOf(b)
  {
    assert LinesOf(a + b) == LinesOf(a) + LinesOf(b) && AcksOf(a + b) == AcksOf(a) + AcksOf(b);
  }

  lemma TurnShowsAndAcks(s: Chat.Session, f: Frame, k: nat)
    requires s.phase == Chatting && s.pending.None? && s.wired <= |s.up|
    ensures var s', now := PumpedOnce(s, f, k), Now(s.seen, f);
      && s'.shown == s.shown + LinesOf(now) && s'.up == s.up + AcksOf(now)
      && s'.recvd == s.recvd + 1 && s'.seen == SeenAfter(s.seen, f)
  {
  }

  // ---- the keyboard ----

  const QUIT := "/quit"

  /** The UTF-8 bytes of one white space character. */
  predicate Space(t: string) {
    || (|t| == 1 && ('\t' <= t[0] <= '\r' || t[0] == ' '))
    || (|t| == 2 && t[0] == '\U{C2}' && (t[1] == '\U{85}' || t[1] == '\U{A0}'))
    || (|t| == 3 && Space3(t[0], t[1], t[2]))
  }

  predicate Space3(a: char, b: char, c: char) {
    || (a == '\U{E1}' && b == '\U{9A}' && c == '\U{80}')
    || (a == '\U{E2}' && b == '\U{80}'
        && ('\U{80}' <= c <= '\U{8A}' || c == '\U{A8}' || c == '\U{A9}' || c == '\U{AF}'))
    || (a == '\U{E2}' && b == '\U{81}' && c == '\U{9F}')
    || (a == '\U{E3}' && b == '\U{80}' && c == '\U{80}')
  }

  /** How many bytes of white space the line starts, or ends, with; 0 for none. */
  function LeadingSpace(s: string): (n: nat)
    ensures n <= |s|
  {
    if |s| >= 1 && Space(s[..1]) then 1
    else if |s| >= 2 && Space(s[..2]) then 2
    else if |s| >= 3 && Space(s[..3]) then 3
    else 0
  }

  function TrailingSpace(s: string): (n: nat)
    ensures n <= |s|
  {
    if |s| >= 1 && Space(s[|s| - 1..]) then 1
    else if |s| >= 2 && Space(s[|s| - 2..]) then 2
    else if |s| >= 3 && Space(s[|s| - 3..]) then 3
    else 0
  }

  /** strings.TrimSpace. */
  function Trim(s: string): string
    decreases |s|
  {
    if LeadingSpace(s) > 0 then Trim(s[LeadingSpace(s)..])
    else if TrailingSpace(s) > 0 then Trim(s[..|s| - TrailingSpace(s)])
    else s
  }

  /** No white space at either end. */
  ghost predicate Bare(t: string) {
    forall n :: 1 <= n <= 3 && n <= |t| ==> !Space(t[..n]) && !Space(t[|t| - n..])
  }

  lemma NothingToCut(s: string)
    requires LeadingSpace(s) == 0 && TrailingSpace(s) == 0
    ensures Bare(s)
  {
    forall n | 1 <= n <= 3 && n <= |s| ensures !Space(s[..n]) && !Space(s[|s| - n..]) {
      if n == 1 {} else if n == 2 {} else {}
    }
  }

  /** What is left of a line has no white space at either end... */
  lemma {:induction false} TrimTrims(s: string)
    ensures Bare(Trim(s))
    decreases |s|
  {
    if LeadingSpace(s) > 0 {
      TrimTrims(s[LeadingSpace(s)..]);
    } else if TrailingSpace(s) > 0 {
      TrimTrims(s[..|s| - TrailingSpace(s)]);
    } else {
      NothingToCut(s);
    }
  }

  /** Nothing but white space. */
  predicate Blank(t: string)
    decreases |t|
  {
    t == "" || (LeadingSpace(t) > 0 && Space(t[..LeadingSpace(t)]) && Blank(t[LeadingSpace(t)..]))
  }

  lemma SpaceLeads(t: string)
    requires Space(t)
    ensures LeadingSpace(t) == |t| > 0
  {
    assert t[..|t|] == t;
    assert |t| >= 2 ==> t[..1] == [t[0]];
    assert |t| >= 3 ==> t[..2] == [t[0], t[1]];
  }

  lemma SpaceIsBlank(t: string)
    requires Space(t)
    ensures Blank(t)
  {
    SpaceLeads(t);
    assert t[..|t|] == t;
    assert t[|t|..] == "";
  }

  lemma SumSplits(a: string, b: string, n: nat)
    requires n <= |a|
    ensures (a + b)[..n] == a[..n] && (a + b)[n..] == a[n..] + b
  {
  }

  lemma SumLeads(a: string, b: string)
    requires LeadingSpace(a) > 0
    ensures LeadingSpace(a + b) == LeadingSpace(a)
  {
    SumSplits(a, b, 1);
    if |a| >= 2 { SumSplits(a, b, 2); }
    if |a| >= 3 { SumSplits(a, b, 3); }
  }

  lemma {:induction false} BlanksTogether(a: string, b: string)
    requires Blank(a) && Blank(b)
    ensures Blank(a + b)
    decreases |a|
  {
    if a == "" {
      assert a + b == b;
    } else {
      var n := LeadingSpace(a);
      BlanksTogether(a[n..], b);
      SumSplits(a, b, n);
      SumLeads(a, b);
    }
  }

  lemma PiecesOfSuffix(s: string, n: nat, i: nat, j: nat)
    requires n <= |s| && i <= j <= |s| - n
    ensures s[..n] + s[n..][..i] == s[..n + i] && s[n..][i..j] == s[n + i..n + j] && s[n..][j..] == s[n + j..]
  {
  }

  lemma PiecesOfPrefix(s: string, n: nat, i: nat, j: nat)
    requires i <= j <= n <= |s|
    ensures s[..n][j..] + s[n..] == s[j..] && s[..n][i..j] == s[i..j] && s[..n][..i] == s[..i]
  {
  }

  /** t is what is left of s when white space is cut off on both sides. */
  predicate CutFrom(t: string, s: string, i: nat, j: nat) {
    i <= j <= |s| && t == s[i..j] && Blank(s[..i]) && Blank(s[j..])
  }

  lemma CutInFront(t: string, s: string, n: nat, i: nat, j: nat)
    requires n <= |s| && Space(s[..n]) && CutFrom(t, s[n..], i, j)
    ensures CutFrom(t, s, n + i, n + j)
  {
    SpaceIsBlank(s[..n]);
    BlanksTogether(s[..n], s[n..][..i]);
    PiecesOfSuffix(s, n, i, j);
  }

  lemma CutBehind(t: string, s: string, n: nat, i: nat, j: nat)
    requires n <= |s| && Space(s[n..]) && CutFrom(t, s[..n], i, j)
    ensures CutFrom(t, s, i, j)
  {
    SpaceIsBlank(s[n..]);
    BlanksTogether(s[..n][j..], s[n..]);
    PiecesOfPrefix(s, n, i, j);
  }

  lemma WholeIsCut(s: string)
    ensures CutFrom(s, s, 0, |s|)
  {
    assert s[0..|s|] == s && s[..0] == "" && s[|s|..] == "";
  }

  /** ... and is a piece of it: what is cut off on either side is white space. */
  lemma {:induction false} TrimIsPiece(s: string) returns (i: nat, j: nat)
    ensures CutFrom(Trim(s), s, i, j)
    decreases |s|
  {
    var m, n := LeadingSpace(s), |s| - TrailingSpace(s);
    if m > 0 {
      var k, l := TrimIsPiece(s[m..]);
      CutInFront(Trim(s[m..]), s, m, k, l);
      i, j := m + k, m + l;
    } else if n < |s| {
      i, j := TrimIsPiece(s[..n]);
      CutBehind(Trim(s[..n]), s, n, i, j);
    } else {
      WholeIsCut(s);
      i, j := 0, |s|;
    }
  }

  /** The id drawn for a line, and what the write pump took before the line is pushed. */
  datatype Draw = Draw(mid: string, k: nat)

  /** One line: nothing for a blank one, otherwise a SEND with a fresh id, which is dropped
      when the channel is full. */
  function TypedOnce(s: Chat.Session, text: string, d: Draw): Chat.Session
    requires s.wired <= |s.up|
  {
    if text == "" then s
    else
      var s1 := WireSome(s, d.k);
      if HasRoom(s1) then s1.(up := s1.up + [SendCommand(s1.outbox, d.mid, text)]) else s1
  }

  function TypedAll(s: Chat.Session, lines: seq<string>, draws: seq<Draw>): (s': Chat.Session)
    requires s.wired <= |s.up| && |draws| == |lines|
    ensures s'.wired <= |s'.up|
    decreases lines
  {
    if lines == [] || Trim(lines[0]) == QUIT then s.(phase := Ended)
    else TypedAll(TypedOnce(s, Trim(lines[0]), draws[0]), lines[1..], draws[1..])
  }

  lemma TypedStep(s: Chat.Session, lines: seq<string>, draws: seq<Draw>, i: nat)
    requires s.wired <= |s.up| && i < |lines| == |draws| && Trim(lines[i]) != QUIT
    ensures TypedAll(s, lines[i..], draws[i..])
         == TypedAll(TypedOnce(s, Trim(lines[i]), draws[i]), lines[i + 1..], draws[i + 1..])
  {
    assert lines[i..][1..] == lines[i + 1..] && draws[i..][1..] == draws[i + 1..];
  }

  /** Line i is reached, and not blank. */
  predicate Said(lines: seq<string>, i: int) {
    0 <= i < |lines| && Trim(lines[i]) != "" && forall j :: 0 <= j <= i ==> Trim(lines[j]) != "/quit"
  }

  /** What line i becomes: its words, under the id drawn for it. */
  function Sending(outbox: string, lines: seq<string>, draws: seq<Draw>, i: nat): Envelope
    requires i < |lines| == |draws|
  {
    Envelope(SEND, outbox, draws[i].mid, Chat(Trim(lines[i])))
  }

  /** Lines that were said, in their order. */
  ghost predicate InTurn(lines: seq<string>, said: seq<nat>) {
    && (forall n :: 0 <= n < |said| ==> Said(lines, said[n]))
    && (forall m, n :: 0 <= m < n < |said| ==> said[m] < said[n])
  }

  function AllSent(outbox: string, lines: seq<string>, draws: seq<Draw>, said: seq<nat>): seq<Envelope>
    requires |lines| == |draws| && forall n :: 0 <= n < |said| ==> said[n] < |lines|
  {
    seq(|said|, n requires 0 <= n < |said| => Sending(outbox, lines, draws, said[n]))
  }

  /** A loop over the keyboard appends, for some of the lines said and in their order, one SEND
      each: to the outbox, with the id drawn for the line, and with its words. Nothing typed
      after /quit leaves. */
  lemma {:induction false} KeyboardSendsWhatWasSaid(s: Chat.Session, lines: seq<string>, draws: seq<Draw>)
    returns (said: seq<nat>)
    requires s.wired <= |s.up| && |draws| == |lines|
    ensures InTurn(lines, said)
    ensures var s' := TypedAll(s, lines, draws);
      && s'.up == s.up + AllSent(s.outbox, lines, draws, said) && s'.shown == s.shown && s'.phase == Ended
    decreases lines
  {
    if lines == [] || Trim(lines[0]) == QUIT {
      said := [];
    } else {
      var s1 := TypedOnce(s, Trim(lines[0]), draws[0]);
      var rest := KeyboardSendsWhatWasSaid(s1, lines[1..], draws[1..]);
      var first := FirstSent(s, lines, draws);
      said := first + seq(|rest|, n requires 0 <= n < |rest| => rest[n] + 1);
      LaterInTurn(lines, rest, first, said);
      SentLater(s.outbox, lines, draws, first, rest, said);
      Together(s.up, AllSent(s.outbox, lines, draws, first), AllSent(s.outbox, lines[1..], draws[1..], rest));
    }
  }

  lemma Together(up: seq<Envelope>, a: seq<Envelope>, b: seq<Envelope>)
    ensures up + a + b == up + (a + b)
  {
  }

  lemma FirstSent(s: Chat.Session, lines: seq<string>, draws: seq<Draw>) returns (first: seq<nat>)
    requires s.wired <= |s.up| && |draws| == |lines| > 0 && Trim(lines[0]) != QUIT
    ensures first == [] || (first == [0] && Trim(lines[0]) != "")
    ensures InTurn(lines, first)
    ensures TypedOnce(s, Trim(lines[0]), draws[0]).up == s.up + AllSent(s.outbox, lines, draws, first)
  {
    first := if TypedOnce(s, Trim(lines[0]), draws[0]).up == s.up then [] else [0];
  }

  lemma LaterInTurn(lines: seq<string>, rest: seq<nat>, first: seq<nat>, said: seq<nat>)
    requires lines != [] && Trim(lines[0]) != QUIT && InTurn(lines[1..], rest)
    requires first == [] || (first == [0] && Trim(lines[0]) != "")
    requires said == first + seq(|rest|, n requires 0 <= n < |rest| => rest[n] + 1)
    ensures InTurn(lines, said)
  {
    forall n | 0 <= n < |said| ensures Said(lines, said[n]) {
      if n >= |first| {
        assert Said(lines[1..], rest[n - |first|]);
        SaidLater(lines, rest[n - |first|]);
      }
    }
  }

  lemma SentLater(outbox: string, lines: seq<string>, draws: seq<Draw>, first: seq<nat>, rest: seq<nat>, said: seq<nat>)
    requires |lines| == |draws| > 0 && InTurn(lines[1..], rest) && InTurn(lines, first) && InTurn(lines, said)
    requires said == first + seq(|rest|, n requires 0 <= n < |rest| => rest[n] + 1)
    ensures forall n :: 0 <= n < |rest| ==> rest[n] < |lines| - 1
    ensures AllSent(outbox, lines, draws, said)
         == AllSent(outbox, lines, draws, first) + AllSent(outbox, lines[1..], draws[1..], rest)
  {
    forall n | 0 <= n < |rest| ensures rest[n] < |lines| - 1 { assert Said(lines[1..], rest[n]); }
  }

  lemma SaidLater(lines: seq<string>, i: int)
    requires lines != [] && Trim(lines[0]) != QUIT && i >= 0
    ensures Said(lines[1..], i) <==> Said(lines, i + 1)
    ensures i < |lines| - 1 ==> lines[1..][i] == lines[i + 1]
  {
    if Said(lines, i + 1) {
      assert forall j :: 0 <= j <= i ==> lines[1..][j] == lines[j + 1];
    }
    if Said(lines[1..], i) {
      forall j | 0 <= j <= i + 1 ensures Trim(lines[j]) != QUIT { assert j > 0 ==> lines[j] == lines[1..][j - 1]; }
    }
  }

  /** A line is dropped exactly when sixteen commands wait even after the write pump's turn. */
  lemma LineIsDroppedWhenFull(s: Chat.Session, text: string, d: Draw)
    requires s.wired <= |s.up|
    ensures TypedOnce(s, text, d).up
         == s.up + if text == "" || |s.up| - s.wired - d.k >= 16 then []
                   else [Envelope(SEND, s.outbox, d.mid, Chat(text))]
  {
  }

  /** When the write pump empties the channel in between, nothing said is dropped. */
  lemma {:induction false} FastPumpDropsNothing(s: Chat.Session, lines: seq<string>, draws: seq<Draw>, i: nat)
    requires s.wired <= |s.up| <= s.wired + SEND_CAPACITY && |draws| == |lines|
    requires (forall d :: d in draws ==> d.k >= 1) && Said(lines, i)
    ensures Sending(s.outbox, lines, draws, i) in TypedAll(s, lines, draws).up
    decreases lines
  {
    assert Trim(lines[0]) != QUIT;
    var s1 := TypedOnce(s, Trim(lines[0]), draws[0]);
    if i == 0 {
      var said := KeyboardSendsWhatWasSaid(s1, lines[1..], draws[1..]);
      assert s1.up[|s.up|] == Sending(s.outbox, lines, draws, 0);
      assert TypedAll(s, lines, draws).up[|s.up|] == s1.up[|s.up|];
    } else {
      SaidLater(lines, i - 1);
      FastPumpDropsNothing(s1, lines[1..], draws[1..], i - 1);
    }
  }

  // ---- the object ----

  class Session {
    var outbox: string
    var inbox: string
    var seen: set<string>
    var screen: seq<Line>
    /** The channel to the write pump, and what that has put on the wire. */
    var send: seq<Envelope>
    var wire: seq<Envelope>
    ghost var view: Chat.Session

    ghost predicate Valid()
      reads this
    {
      && view.outbox == outbox && view.inbox == inbox && view.seen == seen && view.shown == screen
      && view.up == wire + send && view.wired == |wire| && |send| <= SEND_CAPACITY
    }

    ghost predicate AtRest()
      reads this
    {
      Valid() && view.pending.None?
    }

    constructor ()
      ensures AtRest() && view == NEW_SESSION
    {
      outbox, inbox, seen, screen, send, wire := "", "", {}, [], [], [];
      view := NEW_SESSION;
    }

    /** The write pump, for as long as it is scheduled. */
    method WritePump(k: nat)
      requires Valid()
      modifies this`send, this`wire, this`view
      ensures Valid() && view == WireSome(old(view), k) && wire + send == old(wire + send)
    {
      var i := 0;
      while i < k && send != []
        invariant Valid() && 0 <= i <= k && view == WireSome(old(view), i) && wire + send == old(wire + send)
      {
        WriteOne();
        i := i + 1;
      }
    }

    method WriteOne()
      requires Valid() && send != []
      modifies this`send, this`wire, this`view
      ensures Valid() && view == WireSome(old(view), 1) && wire + send == old(wire + send)
      ensures |send| == |old(send)| - 1
    {
      wire, send := wire + [send[0]], send[1..];
      view := WireSome(view, 1);
    }

    /** Writes one command and waits for its reply; frames are what the server's side of the
        connection yields before the deadline. */
    method Request(env: Envelope, want: Phase, frames: seq<Frame>) returns (reply: Option<Frame>)
      requires AtRest() && send == []
      requires (want == WaitNewOk && env == NewCommand()) || (want == WaitSubOk && env == SubCommand(view.inbox))
      modifies this`wire, this`outbox, this`view
      ensures AtRest() && send == [] && wire == old(wire) + [env]
      ensures view == Answered(Asked(old(view), want, env), frames)
      ensures reply.None? <==> view.phase == Ended
    {
      wire := wire + [env];
      view := Asked(view, want, env);
      ghost var asked := view;
      var i := 0;
      while i < |frames|
        invariant 0 <= i <= |frames| && AtRest() && send == [] && wire == old(wire) + [env]
        invariant view.phase == want && Answered(asked, frames) == Answered(view, frames[i..])
      {
        var f := frames[i];
        assert frames[i..][1..] == frames[i + 1..];
        view := Received(view, f);
        i := i + 1;
        if f.Error? { return None; }
        if Wanted(want, f) {
          if f.NewOk? {
            if f.qid == "" { return None; }
            outbox := f.qid;
          }
          return Some(f);
        }
      }
      view := view.(phase := Ended);
      return None;
    }

    /** runChat up to the chat: the outbox is the one on the command line, the remembered
        one, or a new one; then the peer's queue is subscribed. */
    method StartUp(flag: string, saved: Option<string>, peer: string, first: seq<Frame>, second: seq<Frame>)
      returns (ok: bool)
      requires AtRest() && view == NEW_SESSION
      modifies this`wire, this`outbox, this`inbox, this`view
      ensures AtRest() && view == StartedUp(flag, saved, peer, first, second) && ok == (view.phase == Chatting)
    {
      if flag != "" {
        if !ClientValidQID(flag) {
          view := view.(phase := Ended);
          return false;
        }
        outbox := flag;
        view := view.(phase := HaveOutbox, outbox := flag);
      } else if saved.Some? && ClientValidQID(saved.value) {
        outbox := saved.value;
        view := view.(phase := HaveOutbox, outbox := saved.value);
      } else {
        RequestVerdict(Asked(view, WaitNewOk, NewCommand()), first);
        var reply := Request(NewCommand(), WaitNewOk, first);
        if reply.None? { return false; }
      }
      inbox := peer;
      view := view.(inbox := peer);
      var reply := Request(SubCommand(peer), WaitSubOk, second);
      RequestVerdict(Asked(Settled(flag, saved, first).(inbox := peer), WaitSubOk, SubCommand(peer)), second);
      ok := reply.Some?;
    }

    /** One frame, read by the read pump. */
    method ReceiveOne(f: Frame, k: nat)
      requires AtRest() && view.phase == Chatting
      modifies this
      ensures AtRest() && view == PumpedOnce(old(view), f, k)
    {
      view := Received(view, f);
      if f.Deliver? && f.mid !in seen {
        seen := seen + {f.mid};
        if f.payload.Chat? {
          screen := screen + [Line(f.mid, f.payload.text)];
          WritePump(k);
          PushAck(AckCommand(f.qid, f.mid));
          return;
        }
      }
      WritePump(k);
    }

    /** The blocking send: with a full channel, it waits for the write pump. */
    method PushAck(ack: Envelope)
      requires Valid() && view.pending == Some(ack)
      modifies this`send, this`wire, this`view
      ensures AtRest() && view == Pushed(old(view))
    {
      if |send| == SEND_CAPACITY { WriteOne(); }
      send := send + [ack];
      view := view.(up := view.up + [ack], pending := None);
    }

    method ReadPump(frames: seq<Frame>, ks: seq<nat>)
      requires AtRest() && view.phase == Chatting && |ks| == |frames|
      modifies this
      ensures AtRest() && view == PumpedAll(old(view), frames, ks)
    {
      var i := 0;
      while i < |frames|
        invariant 0 <= i <= |frames| && AtRest() && view.phase == Chatting
        invariant PumpedAll(old(view), frames, ks) == PumpedAll(view, frames[i..], ks[i..])
      {
        assert frames[i..][1..] == frames[i + 1..] && ks[i..][1..] == ks[i + 1..];
        ReceiveOne(frames[i], ks[i]);
        i := i + 1;
      }
    }

    /** One line typed: the non-blocking send drops it when the channel is full. */
    method TypeOne(text: string, d: Draw)
      requires AtRest()
      modifies this`send, this`wire, this`view
      ensures AtRest() && view == TypedOnce(old(view), text, d)
    {
      if text == "" { return; }
      WritePump(d.k);
      if |send| < SEND_CAPACITY {
        send := send + [SendCommand(outbox, d.mid, text)];
        view := view.(up := view.up + [SendCommand(outbox, d.mid, text)]);
      }
    }

    method StdinLoop(lines: seq<string>, draws: seq<Draw>)
      requires AtRest() && |draws| == |lines|
      modifies this`send, this`wire, this`view
      ensures AtRest() && view == TypedAll(old(view), lines, draws)
    {
      var i := 0;
      while i < |lines|
        invariant 0 <= i <= |lines| && AtRest()
        invariant TypedAll(old(view), lines, draws) == TypedAll(view, lines[i..], draws[i..])
      {
        var text := Trim(lines[i]);
        if text == QUIT { break; }
        TypedStep(view, lines, draws, i);
        TypeOne(text, draws[i]);
        i := i + 1;
      }
      view := view.(phase := Ended);
    }
  }

  // ---- start-up ----

  function Settled(flag: string, saved: Option<string>, first: seq<Frame>): Chat.Session {
    if flag != "" then
      if ClientValidQID(flag) then NEW_SESSION.(phase := HaveOutbox, outbox := flag)
      else NEW_SESSION.(phase := Ended)
    else if saved.Some? && ClientValidQID(saved.value) then NEW_SESSION.(phase := HaveOutbox, outbox := saved.value)
    else Answered(Asked(NEW_SESSION, WaitNewOk, NewCommand()), first)
  }

  function StartedUp(flag: string, saved: Option<string>, peer: string, first: seq<Frame>,
                     second: seq<Frame>): Chat.Session {
    var s := Settled(flag, saved, first);
    if s.phase == Ended then s else Answered(Asked(s.(inbox := peer), WaitSubOk, SubCommand(peer)), second)
  }

  /** A session chats exactly when its outbox could be settled and its SUB was granted. It
      has then sent one SUB, and NEW only when no valid outbox was given or remembered; it
      has seen and shown nothing. */
  lemma StartUpVerdict(flag: string, saved: Option<string>, peer: string, first: seq<Frame>, second: seq<Frame>)
    ensures var s := StartedUp(flag, saved, peer, first, second);
      var known := flag != "" || (saved.Some? && ClientValidQID(saved.value));
      && (s.phase == Chatting <==>
          && (flag != "" ==> ClientValidQID(flag))
          && (!known ==> exists i :: Decides(WaitNewOk, first, i) && first[i].NewOk? && first[i].qid != "")
          && (exists i :: Decides(WaitSubOk, second, i) && second[i].SubOk?))
      && (s.phase == Chatting ==>
          && s.inbox == peer && s.seen == {} && s.shown == []
          && s.wired == |s.up|
          && s.up == (if known then [] else [Envelope(NEW, "", "", Raw("{}"))]) + [Envelope(SUB, peer, "", Raw("{}"))]
          && (if flag != "" then s.outbox == flag else if known then s.outbox == saved.value
              else exists i :: Decides(WaitNewOk, first, i) && first[i] == NewOk(s.outbox)))
  {
    RequestVerdict(Asked(NEW_SESSION, WaitNewOk, NewCommand()), first);
    var s := Settled(flag, saved, first);
    if s.phase != Ended { RequestVerdict(Asked(s.(inbox := peer), WaitSubOk, SubCommand(peer)), second); }
  }

  // ---- the loops are runs of World ----

  ghost predicate Alive(w: World.World, c: nat) {
    && |w.sessions| == |w.p.hub.chans| && Relay.Indexed(w.p.hub) && c < |w.sessions|
    && w.sessions[c].wired <= |w.sessions[c].up| <= w.sessions[c].wired + SEND_CAPACITY
  }

  lemma {:induction false} WireSomeIsMoves(w: World.World, c: nat, k: nat) returns (ms: seq<World.Move>)
    requires Alive(w, c)
    ensures World.Moves(w, ms, World.With(w, c, WireSome(w.sessions[c], k)))
    decreases k
  {
    var s := w.sessions[c];
    if k == 0 || s.wired == |s.up| {
      assert World.With(w, c, WireSome(s, k)) == w;
      ms := [];
    } else {
      var w1 := World.Moved(w, World.WireUp(c));
      OneMove(w, World.WireUp(c));
      var rest := WireSomeIsMoves(w1, c, k - 1);
      assert World.With(w1, c, WireSome(w1.sessions[c], k - 1)) == World.With(w, c, WireSome(s, k));
      ms := [World.WireUp(c)] + rest;
      MovesAppend(w, [World.WireUp(c)], w1, rest, World.With(w, c, WireSome(s, k)));
    }
  }

  /** What the client writes in its start-up is one move each. */
  lemma AskingIsAMove(w: World.World, c: nat, qid: string)
    requires c < |w.sessions|
    ensures World.Allowed(w, World.AskNew(c)) ==>
      World.Moved(w, World.AskNew(c)) == World.With(w, c, Asked(w.sessions[c], WaitNewOk, NewCommand()))
    ensures World.Allowed(w, World.AskSub(c, qid)) ==>
      World.Moved(w, World.AskSub(c, qid))
      == World.With(w, c, Asked(w.sessions[c].(inbox := qid), WaitSubOk, SubCommand(qid)))
  {
  }

  /** The frames session c reads next, when n of them are on the wire. */
  function Arriving(w: World.World, c: nat, n: nat): seq<Frame>
    requires c < |w.sessions| == |w.p.hub.chans| && w.sessions[c].recvd + n <= |w.p.hub.chans[c].hist|
  {
    w.p.hub.chans[c].hist[w.sessions[c].recvd..w.sessions[c].recvd + n]
  }

  ghost predicate Readable(w: World.World, c: nat, n: nat) {
    && c < |w.sessions| == |w.p.hub.chans| && Relay.Indexed(w.p.hub)
    && w.sessions[c].recvd + n <= w.p.hub.chans[c].popped <= |w.p.hub.chans[c].hist|
  }

  /** The request loop over n frames on the wire is a run of moves; when they give out
      before an answer, it is the time-out. */
  lemma {:induction false} AnswerIsMoves(w: World.World, c: nat, n: nat) returns (ms: seq<World.Move>)
    requires Readable(w, c, n)
    ensures World.Moves(w, ms, World.With(w, c, Answered(w.sessions[c], Arriving(w, c, n))))
    decreases n
  {
    var s := w.sessions[c];
    if !StartingUp(s) {
      assert World.With(w, c, s) == w;
      ms := [];
    } else if n == 0 {
      OneMove(w, World.Quit(c));
      ms := [World.Quit(c)];
    } else {
      var w1 := ReadingIsAMove(w, c, n);
      var rest := AnswerIsMoves(w1, c, n - 1);
      ms := [World.Receive(c)] + rest;
      MovesAppend(w, [World.Receive(c)], w1, rest, World.With(w, c, Answered(s, Arriving(w, c, n))));
    }
  }

  lemma ReadingIsAMove(w: World.World, c: nat, n: nat) returns (w1: World.World)
    requires Readable(w, c, n) && n > 0 && StartingUp(w.sessions[c])
    ensures World.Moves(w, [World.Receive(c)], w1) && Readable(w1, c, n - 1)
    ensures World.With(w1, c, Answered(w1.sessions[c], Arriving(w1, c, n - 1)))
         == World.With(w, c, Answered(w.sessions[c], Arriving(w, c, n)))
  {
    var frames := Arriving(w, c, n);
    var s1 := Received(w.sessions[c], frames[0]);
    w1 := World.Moved(w, World.Receive(c));
    OneMove(w, World.Receive(c));
    assert w1 == World.With(w, c, s1) && s1.recvd == w.sessions[c].recvd + 1;
    assert frames[1..] == Arriving(w1, c, n - 1);
  }

  /** A turn of the read pump is a run of moves: what holds after every run of moves holds
      between the turns of the loop. */
  lemma PumpTurnIsMoves(w: World.World, c: nat, k: nat) returns (ms: seq<World.Move>)
    requires Alive(w, c) && World.Allowed(w, World.Receive(c)) && w.sessions[c].phase == Chatting
    ensures World.Moves(w, ms,
      World.With(w, c, PumpedOnce(w.sessions[c], w.p.hub.chans[c].hist[w.sessions[c].recvd], k)))
  {
    var w1 := World.Moved(w, World.Receive(c));
    OneMove(w, World.Receive(c));
    var wires := WireSomeIsMoves(w1, c, k);
    var w2 := World.With(w1, c, WireSome(w1.sessions[c], k));
    ms := [World.Receive(c)] + wires;
    MovesAppend(w, [World.Receive(c)], w1, wires, w2);
    var s2 := w2.sessions[c];
    var end := World.With(w, c, PumpedOnce(w.sessions[c], w.p.hub.chans[c].hist[w.sessions[c].recvd], k));
    if s2.pending.None? {
      assert w2 == end;
    } else {
      var push := PushIsMoves(w2, c);
      assert World.With(w2, c, Pushed(s2)) == end;
      MovesAppend(w, ms, w2, push, end);
      ms := ms + push;
    }
  }

  lemma PushIsMoves(w: World.World, c: nat) returns (ms: seq<World.Move>)
    requires Alive(w, c) && w.sessions[c].pending.Some?
    ensures World.Moves(w, ms, World.With(w, c, Pushed(w.sessions[c])))
  {
    var s := w.sessions[c];
    var w1 := if HasRoom(s) then w else World.With(w, c, WireSome(s, 1));
    var room: seq<World.Move> := [];
    if !HasRoom(s) { room := WireSomeIsMoves(w, c, 1); }
    OneMove(w1, World.PushAck(c));
    ms := room + [World.PushAck(c)];
    MovesAppend(w, room, w1, [World.PushAck(c)], World.Moved(w1, World.PushAck(c)));
    assert World.Moved(w1, World.PushAck(c)) == World.With(w, c, Pushed(s));
  }

  /** So is a line typed, when the id drawn for it is fresh. */
  lemma TypeTurnIsMoves(w: World.World, c: nat, text: string, d: Draw) returns (ms: seq<World.Move>)
    requires Alive(w, c) && w.sessions[c].phase == Chatting && text != ""
    requires ClientValidQID(d.mid) && d.mid !in w.used
    ensures World.Moves(w, ms,
      World.With(w, c, TypedOnce(w.sessions[c], text, d)).(used := w.used + {d.mid}))
  {
    var wires := WireSomeIsMoves(w, c, d.k);
    var w1 := World.With(w, c, WireSome(w.sessions[c], d.k));
    var m := World.Type(c, d.mid, text);
    OneMove(w1, m);
    MovesAppend(w, wires, w1, [m], World.Moved(w1, m));
    ms := wires + [m];
    assert World.Moved(w1, m) == World.With(w, c, TypedOnce(w.sessions[c], text, d)).(used := w.used + {d.mid});
  }
}
