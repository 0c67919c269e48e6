/** What travels on a connection: commands from a client (Envelope) and frames from the
    server (Frame). JSON text is not modelled: an incoming message is either not a JSON
    object or the record its fields decode to. */
module Frames {
  import opened Ids

  /** A payload the client can decode as a chat message, or any other JSON value. */
  datatype Payload = Chat(text: string) | Raw(json: string)

  datatype Kind = NEW | SUB | SEND | ACK | PING | OTHER

  datatype Envelope = Envelope(kind: Kind, qid: string, mid: string, payload: Payload)

  datatype Message = NotJson | Decoded(version: int, kindName: string, envelope: Envelope)

  const VERSION := 1
  const EMPTY_OBJECT := Raw("{}")

  datatype Frame =
    | NewOk(qid: string)
    | SubOk(qid: string)
    | Deliver(qid: string, mid: string, payload: Payload)
    | Acked(qid: string, mid: string)
    | Error(code: int)
    | Pong

  const BAD_REQUEST := 400
  const QUEUE_NOT_FOUND := 404
  const SERVER_ERROR := 500

  // ---- the commands of a shipped client ----

  function NewCommand(): Envelope { Envelope(NEW, "", "", EMPTY_OBJECT) }

  function SubCommand(qid: string): Envelope { Envelope(SUB, qid, "", EMPTY_OBJECT) }

  function SendCommand(qid: string, mid: string, text: string): Envelope { Envelope(SEND, qid, mid, Chat(text)) }

  function AckCommand(qid: string, mid: string): Envelope { Envelope(ACK, qid, mid, EMPTY_OBJECT) }

  /** An envelope as NewEnvelope wraps it. */
  function Wire(env: Envelope): Message {
    Decoded(VERSION, "COMMAND", env)
  }

  /** protocol.Parse: JSON, then the version, then a non-empty type. */
  function Parse(m: Message): Option<Envelope> {
    if m.NotJson? || m.version != VERSION || m.kindName == "" then None else Some(m.envelope)
  }

  /** a can be had from b by leaving elements out. */
  predicate Subsequence<T(==)>(a: seq<T>, b: seq<T>) {
    if a == [] then true
    else if b == [] then false
    else if a[|a| - 1] == b[|b| - 1] then Subsequence(a[..|a| - 1], b[..|b| - 1])
    else Subsequence(a, b[..|b| - 1])
  }

  lemma {:induction false} SubsequenceDropLast<T>(a: seq<T>, b: seq<T>)
    requires a != [] && Subsequence(a, b)
    ensures Subsequence(a[..|a| - 1], b)
    decreases |b|, 0
  {
    var a' := a[..|a| - 1];
    var b' := b[..|b| - 1];
    if a[|a| - 1] == b[|b| - 1] {
      SubsequenceSkip(a', b', b[|b| - 1]);
      assert b' + [b[|b| - 1]] == b;
    } else {
      SubsequenceDropLast(a, b');
      SubsequenceSkip(a', b', b[|b| - 1]);
      assert b' + [b[|b| - 1]] == b;
    }
  }

  lemma {:induction false} SubsequenceSkip<T>(a: seq<T>, b: seq<T>, x: T)
    requires Subsequence(a, b)
    ensures Subsequence(a, b + [x])
    decreases |b|, 1
  {
    assert (b + [x])[..|b|] == b;
    if a != [] && a[|a| - 1] == x {
      SubsequenceDropLast(a, b);
    }
  }

  lemma SubsequenceTake<T>(a: seq<T>, b: seq<T>, x: T)
    requires Subsequence(a, b)
    ensures Subsequence(a + [x], b + [x])
  {
    assert (a + [x])[..|a|] == a && (b + [x])[..|b|] == b;
  }

  lemma {:induction false} SubsequencePrefix<T>(a: seq<T>, b: seq<T>, k: nat)
    requires k <= |a| && Subsequence(a, b)
    ensures Subsequence(a[..k], b)
    decreases |a|
  {
    if k == |a| {
      assert a[..k] == a;
    } else {
      SubsequenceDropLast(a, b);
      SubsequencePrefix(a[..|a| - 1], b, k);
      assert a[..|a| - 1][..k] == a[..k];
    }
  }
}
