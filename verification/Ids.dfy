/** Bytes, hexadecimal text and the identifiers made of it (protocol/envelope.go,
    and the client's own check in client/session.go). A Go string is modelled as
    the sequence of its bytes. */
module Ids {

  datatype Option<+T> = None | Some(value: T)

  type Byte = b: int | 0 <= b < 256

  predicate IsLowerHex(c: char) {
    '0' <= c <= '9' || 'a' <= c <= 'f'
  }

  predicate IsHex(c: char) {
    IsLowerHex(c) || 'A' <= c <= 'F'
  }

  function HexDigit(n: int): (c: char)
    requires 0 <= n < 16
    ensures IsLowerHex(c) && HexValue(c) == n
  {
    if n < 10 then (n + 48) as char else (n + 87) as char
  }

  function HexValue(c: char): (n: int)
    requires IsHex(c)
    ensures 0 <= n < 16
  {
    if c <= '9' then c as int - 48 else if c <= 'F' then c as int - 55 else c as int - 87
  }

  /** hex.EncodeToString: two lower-case digits a byte. */
  function HexEncode(bytes: seq<Byte>): (s: string)
    ensures |s| == 2 * |bytes|
    ensures forall i :: 0 <= i < |s| ==> IsLowerHex(s[i])
  {
    if bytes == [] then []
    else [HexDigit(bytes[0] / 16), HexDigit(bytes[0] % 16)] + HexEncode(bytes[1..])
  }

  /** hex.DecodeString: either case, an even number of digits, nothing else. */
  function HexDecode(s: string): Option<seq<Byte>> {
    if s == [] then Some([])
    else if |s| == 1 || !IsHex(s[0]) || !IsHex(s[1]) then None
    else
      match HexDecode(s[2..])
      case None => None
      case Some(rest) => Some([16 * HexValue(s[0]) + HexValue(s[1])] + rest)
  }

  /** protocol.ValidQueueID, the server's test of a queue id. */
  predicate ValidQueueID(qid: string) {
    |qid| == 32 && HexDecode(qid).Some?
  }

  /** The client's stricter test, validQID: 32 lower-case digits. */
  predicate ClientValidQID(qid: string) {
    |qid| == 32 && forall i :: 0 <= i < 32 ==> IsLowerHex(qid[i])
  }

  /** protocol.NewID, given the sixteen random bytes it draws. */
  function NewID(random: seq<Byte>): string
    requires |random| == 16
  {
    HexEncode(random)
  }

  lemma {:induction false} HexDecodesExactlyHex(s: string)
    ensures HexDecode(s).Some? <==> |s| % 2 == 0 && forall i :: 0 <= i < |s| ==> IsHex(s[i])
  {
    if |s| >= 2 {
      HexDecodesExactlyHex(s[2..]);
      assert forall i :: 2 <= i < |s| ==> s[i] == s[2..][i - 2];
      assert s == [s[0], s[1]] + s[2..];
    }
  }

  lemma {:induction false} HexRoundTrip(bytes: seq<Byte>)
    ensures HexDecode(HexEncode(bytes)) == Some(bytes)
  {
    if bytes != [] {
      HexRoundTrip(bytes[1..]);
      assert HexEncode(bytes)[2..] == HexEncode(bytes[1..]);
      assert bytes == [bytes[0]] + bytes[1..];
    }
  }

  /** Two digits a byte, the high half first; decoding takes either case. */
  lemma {:induction false} HexDigits(bytes: seq<Byte>, i: nat)
    requires i < |bytes|
    ensures HexEncode(bytes)[2 * i] == "0123456789abcdef"[bytes[i] / 16]
    ensures HexEncode(bytes)[2 * i + 1] == "0123456789abcdef"[bytes[i] % 16]
  {
    if i > 0 {
      HexDigits(bytes[1..], i - 1);
      assert HexEncode(bytes)[2..] == HexEncode(bytes[1..]);
    }
  }

  lemma HexValues(n: int)
    requires 0 <= n < 16
    ensures IsHex("0123456789abcdef"[n]) && HexValue("0123456789abcdef"[n]) == n
    ensures IsHex("0123456789ABCDEF"[n]) && HexValue("0123456789ABCDEF"[n]) == n
  {
  }

  /** A queue id is accepted exactly when it is 32 hex digits of either case: the
      source's comment promises lower case, the code does not ask for it. */
  lemma ValidQueueIDIff(qid: string)
    ensures ValidQueueID(qid) <==> |qid| == 32 && forall i :: 0 <= i < 32 ==> IsHex(qid[i])
  {
    HexDecodesExactlyHex(qid);
  }

  /** The client never refuses less than the server, and a fresh id passes both tests. */
  lemma ClientCheckIsStricter(qid: string)
    requires ClientValidQID(qid)
    ensures ValidQueueID(qid)
  {
    ValidQueueIDIff(qid);
  }

  lemma NewIDPassesBothChecks(random: seq<Byte>)
    requires |random| == 16
    ensures ClientValidQID(NewID(random)) && ValidQueueID(NewID(random))
    ensures HexDecode(NewID(random)) == Some(random)
  {
    HexRoundTrip(random);
  }

  lemma {:induction false} LowerHexIsEncoded(s: string) returns (bytes: seq<Byte>)
    requires |s| % 2 == 0 && forall i :: 0 <= i < |s| ==> IsLowerHex(s[i])
    ensures HexEncode(bytes) == s
    decreases |s|
  {
    if s == [] {
      bytes := [];
    } else {
      var rest := LowerHexIsEncoded(s[2..]);
      var b := 16 * HexValue(s[0]) + HexValue(s[1]);
      bytes := [b] + rest;
      assert b / 16 == HexValue(s[0]) && b % 16 == HexValue(s[1]);
      assert HexDigit(HexValue(s[0])) == s[0] && HexDigit(HexValue(s[1])) == s[1];
      assert bytes[1..] == rest && s == [s[0], s[1]] + s[2..];
    }
  }

  /** The client accepts exactly the ids NewID can draw. */
  lemma ClientIdsAreNewIDs(s: string)
    ensures ClientValidQID(s) <==> exists random: seq<Byte> :: |random| == 16 && NewID(random) == s
  {
    if ClientValidQID(s) {
      var random := LowerHexIsEncoded(s);
      assert NewID(random) == s;
    }
  }
}
