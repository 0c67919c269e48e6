/** Unpadded base64url, section 5 of RFC 4648, as Go's base64.RawURLEncoding does it: line
    breaks are skipped, and the bits a short last group leaves over may be anything. */
module Base64Url {
  import opened Ids

  type Sextet = n: int | 0 <= n < 64

  // ---- the alphabet ----

  predicate IsDigit64(c: char) {
    'A' <= c <= 'Z' || 'a' <= c <= 'z' || '0' <= c <= '9' || c == '-' || c == '_'
  }

  function Digit64(n: Sextet): (c: char)
    ensures IsDigit64(c) && Value64(c) == n
  {
    if n < 26 then (n + 65) as char
    else if n < 52 then (n + 71) as char
    else if n < 62 then (n - 4) as char
    else if n == 62 then '-' else '_'
  }

  function Value64(c: char): Sextet
    requires IsDigit64(c)
  {
    if c == '-' then 62
    else if c == '_' then 63
    else if c <= '9' then c as int + 4
    else if c <= 'Z' then c as int - 65
    else c as int - 71
  }

  lemma DigitOfValue(c: char)
    requires IsDigit64(c)
    ensures Digit64(Value64(c)) == c
  {
  }

  predicate AllDigits64(s: string) {
    forall i :: 0 <= i < |s| ==> IsDigit64(s[i])
  }

  function Digits(v: seq<Sextet>): (s: string)
    ensures |s| == |v| && AllDigits64(s)
  {
    seq(|v|, i requires 0 <= i < |v| => Digit64(v[i]))
  }

  function Values(s: string): (v: seq<Sextet>)
    requires AllDigits64(s)
    ensures |v| == |s|
  {
    seq(|s|, i requires 0 <= i < |s| => Value64(s[i]))
  }

  lemma ValuesOfDigits(v: seq<Sextet>)
    ensures Values(Digits(v)) == v
  {
  }

  lemma DigitsOfValues(s: string)
    requires AllDigits64(s)
    ensures Digits(Values(s)) == s
  {
    forall i | 0 <= i < |s| ensures Digits(Values(s))[i] == s[i] { DigitOfValue(s[i]); }
  }

  // ---- bits ----

  function Group(x: Byte, y: Byte, z: Byte): (v: seq<Sextet>)
    ensures |v| == 4
  {
    [x / 4, x % 4 * 16 + y / 16, y % 16 * 4 + z / 64, z % 64]
  }

  function Ungroup(a: Sextet, b: Sextet, c: Sextet, d: Sextet): (bytes: seq<Byte>)
    ensures |bytes| == 3
  {
    [a * 4 + b / 16, b % 16 * 16 + c / 4, c % 4 * 64 + d]
  }

  function ToSextets(b: seq<Byte>): (v: seq<Sextet>)
    ensures |v| == (4 * |b| + 2) / 3
  {
    if b == [] then []
    else if |b| == 1 then Group(b[0], 0, 0)[..2]
    else if |b| == 2 then Group(b[0], b[1], 0)[..3]
    else Group(b[0], b[1], b[2]) + ToSextets(b[3..])
  }

  function FromSextets(v: seq<Sextet>): Option<seq<Byte>> {
    if v == [] then Some([])
    else if |v| == 1 then None
    else if |v| == 2 then Some(Ungroup(v[0], v[1], 0, 0)[..1])
    else if |v| == 3 then Some(Ungroup(v[0], v[1], v[2], 0)[..2])
    else
      match FromSextets(v[4..])
      case None => None
      case Some(rest) => Some(Ungroup(v[0], v[1], v[2], v[3]) + rest)
  }

  lemma Packed(hi: int, lo: int)
    ensures 0 <= lo < 4 ==> (hi * 4 + lo) / 4 == hi && (hi * 4 + lo) % 4 == lo
    ensures 0 <= lo < 16 ==> (hi * 16 + lo) / 16 == hi && (hi * 16 + lo) % 16 == lo
    ensures 0 <= lo < 64 ==> (hi * 64 + lo) / 64 == hi && (hi * 64 + lo) % 64 == lo
  {
  }

  lemma GroupUngroup(x: Byte, y: Byte, z: Byte)
    ensures var g := Group(x, y, z); Ungroup(g[0], g[1], g[2], g[3]) == [x, y, z]
  {
    Packed(x % 4, y / 16);
    Packed(y % 16, z / 64);
  }

  lemma UngroupGroup(a: Sextet, b: Sextet, c: Sextet, d: Sextet)
    ensures var u := Ungroup(a, b, c, d); Group(u[0], u[1], u[2]) == [a, b, c, d]
  {
    Packed(a, b / 16);
    Packed(b % 16, c / 4);
    Packed(c % 4, d);
  }

  lemma {:induction false} FromToSextets(b: seq<Byte>)
    ensures FromSextets(ToSextets(b)) == Some(b)
  {
    if |b| == 1 {
      GroupUngroup(b[0], 0, 0);
      var g := Group(b[0], 0, 0);
      assert g[2] == g[3] == 0 && ToSextets(b) == g[..2] && Ungroup(g[0], g[1], 0, 0)[..1] == [b[0]];
      assert b == [b[0]];
    } else if |b| == 2 {
      GroupUngroup(b[0], b[1], 0);
      var g := Group(b[0], b[1], 0);
      assert g[3] == 0 && ToSextets(b) == g[..3] && Ungroup(g[0], g[1], g[2], 0)[..2] == [b[0], b[1]];
      assert b == [b[0], b[1]];
    } else if |b| >= 3 {
      FromToSextets(b[3..]);
      GroupUngroup(b[0], b[1], b[2]);
      assert ToSextets(b)[4..] == ToSextets(b[3..]);
      assert b == [b[0], b[1], b[2]] + b[3..];
    }
  }

  lemma Split3(u: seq<Byte>, tail: seq<Byte>, b: seq<Byte>)
    requires |u| == 3
    ensures u + tail == b <==> |b| >= 3 && u == [b[0], b[1], b[2]] && tail == b[3..]
  {
    assert (u + tail)[..3] == u && (u + tail)[3..] == tail;
    if |b| >= 3 {
      assert b[..3] == [b[0], b[1], b[2]] && b == b[..3] + b[3..];
    }
  }

  lemma LastGroup(p: Sextet, q: Sextet, r: Sextet, x: Byte, y: Byte)
    ensures var g := Group(x, y, 0);
      Ungroup(p, q, r, 0)[..2] == [x, y] <==> p == g[0] && q == g[1] && r / 4 == g[2] / 4
  {
    var u := Ungroup(p, q, r, 0);
    assert u[..2] == [u[0], u[1]];
    Packed(p, q / 16);
    Packed(q % 16, r / 4);
    Packed(x % 4, y / 16);
    Packed(y % 16, 0);
  }

  /** v spells b, up to the two spare bits of the last sextet. */
  predicate Spells(v: seq<Sextet>, b: seq<Byte>)
    requires |v| > 0 && |v| == |ToSextets(b)|
  {
    (forall i :: 0 <= i < |v| - 1 ==> v[i] == ToSextets(b)[i]) && v[|v| - 1] / 4 == ToSextets(b)[|v| - 1] / 4
  }

  lemma SpellsGroups(v: seq<Sextet>, b: seq<Byte>)
    requires |v| > 4 && |v| == |ToSextets(b)|
    ensures |b| >= 3 && |v[4..]| == |ToSextets(b[3..])|
    ensures Spells(v, b) <==> [v[0], v[1], v[2], v[3]] == Group(b[0], b[1], b[2]) && Spells(v[4..], b[3..])
  {
    SpellsInTwo(v, ToSextets(b), Group(b[0], b[1], b[2]), ToSextets(b[3..]));
  }

  lemma SpellsInTwo(v: seq<Sextet>, e: seq<Sextet>, g: seq<Sextet>, rest: seq<Sextet>)
    requires |v| == |e| > 4 && |g| == 4 && e == g + rest
    ensures (forall i :: 0 <= i < |v| - 1 ==> v[i] == e[i]) && v[|v| - 1] / 4 == e[|v| - 1] / 4
       <==> (v[..4] == g && (forall i :: 0 <= i < |v| - 5 ==> v[4..][i] == rest[i])
             && v[4..][|v| - 5] / 4 == rest[|v| - 5] / 4)
    ensures v[..4] == [v[0], v[1], v[2], v[3]]
  {
    if forall i :: 0 <= i < |v| - 1 ==> v[i] == e[i] {
      assert forall i :: 0 <= i < 4 ==> v[..4][i] == g[i];
      forall i | 0 <= i < |v| - 5 ensures v[4..][i] == rest[i] { assert v[i + 4] == e[i + 4]; }
    }
    if v[..4] == g && forall i :: 0 <= i < |v| - 5 ==> v[4..][i] == rest[i] {
      forall i | 0 <= i < |v| - 1 ensures v[i] == e[i] {
        if i < 4 { assert v[i] == v[..4][i]; } else { assert v[i] == v[4..][i - 4]; }
      }
    }
  }

  lemma ThreeSextets(v: seq<Sextet>, b: seq<Byte>)
    requires |v| == 3 && |v| == |ToSextets(b)|
    ensures FromSextets(v) == Some(b) <==> Spells(v, b)
  {
    LastGroup(v[0], v[1], v[2], b[0], b[1]);
    assert b == [b[0], b[1]];
  }

  lemma FourLess(n: nat)
    requires n >= 4
    ensures (n - 4) % 4 == n % 4
  {
  }

  /** 4m + 3 sextets decode to b exactly when they spell it. */
  lemma {:induction false} SpareBits(v: seq<Sextet>, b: seq<Byte>)
    requires |v| % 4 == 3 && |v| == |ToSextets(b)|
    ensures FromSextets(v) == Some(b) <==> Spells(v, b)
  {
    if |v| == 3 {
      ThreeSextets(v, b);
    } else {
      SpellsGroups(v, b);
      FourLess(|v|);
      SpareBits(v[4..], b[3..]);
      GroupIsUngrouped(v[0], v[1], v[2], v[3], b[0], b[1], b[2]);
      FirstGroupDecodes(v, b);
    }
  }

  lemma GroupIsUngrouped(p: Sextet, q: Sextet, r: Sextet, s: Sextet, x: Byte, y: Byte, z: Byte)
    ensures Ungroup(p, q, r, s) == [x, y, z] <==> [p, q, r, s] == Group(x, y, z)
  {
    GroupUngroup(x, y, z);
    UngroupGroup(p, q, r, s);
  }

  lemma FirstGroupDecodes(v: seq<Sextet>, b: seq<Byte>)
    requires |v| > 4 && |b| >= 3
    ensures FromSextets(v) == Some(b)
       <==> Ungroup(v[0], v[1], v[2], v[3]) == [b[0], b[1], b[2]] && FromSextets(v[4..]) == Some(b[3..])
  {
    var u := Ungroup(v[0], v[1], v[2], v[3]);
    if FromSextets(v[4..]).Some? { Split3(u, FromSextets(v[4..]).value, b); }
  }

  // ---- text ----

  function Encode(b: seq<Byte>): (s: string)
    ensures AllDigits64(s) && |s| == (4 * |b| + 2) / 3
  {
    Digits(ToSextets(b))
  }

  /** Byte i, or zero past the end. */
  function At(b: seq<Byte>, i: nat): Byte {
    if i < |b| then b[i] else 0
  }

  /** The 24 bits of group k as one number, first byte first. */
  function Word(b: seq<Byte>, k: nat): nat {
    At(b, 3 * k) * 65536 + At(b, 3 * k + 1) * 256 + At(b, 3 * k + 2)
  }

  /** Sextet j of a word of 24 bits, highest first. */
  function SextetOf(w: nat, j: nat): Sextet
    requires j < 4
  {
    if j == 0 then w / 64 / 64 / 64 % 64
    else if j == 1 then w / 64 / 64 % 64
    else if j == 2 then w / 64 % 64
    else w % 64
  }

  lemma GroupIsWord(x: Byte, y: Byte, z: Byte)
    ensures var w: nat := x * 65536 + y * 256 + z;
      Group(x, y, z) == [SextetOf(w, 0), SextetOf(w, 1), SextetOf(w, 2), SextetOf(w, 3)]
  {
    Packed(x * 1024 + y * 4 + z / 64, z % 64);
    Packed(x * 16 + y / 16, y % 16 * 4 + z / 64);
    Packed(x / 4, x % 4 * 16 + y / 16);
  }

  lemma {:induction false} SextetsAreBits(b: seq<Byte>, k: nat, j: nat)
    requires j < 4 && 4 * k + j < |ToSextets(b)|
    ensures ToSextets(b)[4 * k + j] == SextetOf(Word(b, k), j)
    decreases k
  {
    if k == 0 {
      FirstSextets(b, j);
      GroupIsWord(At(b, 0), At(b, 1), At(b, 2));
    } else {
      LaterSextets(b, k, j);
      SextetsAreBits(b[3..], k - 1, j);
    }
  }

  lemma LaterSextets(b: seq<Byte>, k: nat, j: nat)
    requires 0 < k && j < 4 && 4 * k + j < |ToSextets(b)|
    ensures |b| >= 3 && 4 * (k - 1) + j < |ToSextets(b[3..])|
    ensures ToSextets(b)[4 * k + j] == ToSextets(b[3..])[4 * (k - 1) + j] && Word(b, k) == Word(b[3..], k - 1)
  {
  }

  lemma FirstSextets(b: seq<Byte>, i: nat)
    requires i < 4 && i < |ToSextets(b)|
    ensures ToSextets(b)[i] == Group(At(b, 0), At(b, 1), At(b, 2))[i]
  {
  }

  /** c is the character of v in table 2 of RFC 4648. */
  predicate IsCharacterOf(c: char, v: Sextet) {
    && (v < 26 ==> c as int == 'A' as int + v)
    && (26 <= v < 52 ==> c as int == 'a' as int + v - 26)
    && (52 <= v < 62 ==> c as int == '0' as int + v - 52)
    && (v == 62 ==> c == '-') && (v == 63 ==> c == '_')
  }

  /** Section 4 of RFC 4648: digit j of group k is the character of bits 6j to 6j + 5 of its
      three bytes, and bytes past the end are zero. */
  lemma EncodeSpellsBits(b: seq<Byte>, k: nat, j: nat)
    requires j < 4 && 4 * k + j < |Encode(b)|
    ensures IsCharacterOf(Encode(b)[4 * k + j], SextetOf(Word(b, k), j))
  {
    SextetsAreBits(b, k, j);
  }

  function Strip(s: string): string {
    if s == [] then []
    else (if s[0] == '\r' || s[0] == '\n' then [] else [s[0]]) + Strip(s[1..])
  }

  function Decode(s: string): Option<seq<Byte>> {
    if AllDigits64(Strip(s)) then FromSextets(Values(Strip(s))) else None
  }

  lemma {:induction false} StripKeepsDigits(s: string)
    requires AllDigits64(s)
    ensures Strip(s) == s
  {
    if s != [] { StripKeepsDigits(s[1..]); }
  }

  /** How many characters of the alphabet s holds. */
  function Letters(s: string): nat {
    if s == [] then 0 else (if IsDigit64(s[0]) then 1 else 0) + Letters(s[1..])
  }

  lemma {:induction false} StripKeepsLetters(s: string)
    ensures AllDigits64(Strip(s)) <==> forall i :: 0 <= i < |s| ==> IsDigit64(s[i]) || s[i] == '\r' || s[i] == '\n'
    ensures AllDigits64(Strip(s)) ==> |Strip(s)| == Letters(s)
  {
    if s != [] {
      StripKeepsLetters(s[1..]);
      var rest := Strip(s[1..]);
      assert forall i :: 1 <= i < |s| ==> s[i] == s[1..][i - 1];
      if s[0] == '\r' || s[0] == '\n' {
        assert Strip(s) == rest;
      } else {
        assert Strip(s) == [s[0]] + rest;
        assert forall i :: 0 <= i < |rest| ==> rest[i] == Strip(s)[i + 1];
        assert Strip(s)[0] == s[0];
      }
    }
  }

  lemma FourMore(v: seq<Sextet>)
    requires |v| >= 4
    ensures FromSextets(v).Some? <==> FromSextets(v[4..]).Some?
  {
  }

  lemma {:induction false} FromSextetsIff(v: seq<Sextet>)
    ensures FromSextets(v).Some? <==> |v| % 4 != 1
  {
    if |v| >= 4 {
      FromSextetsIff(v[4..]);
      FourMore(v);
      FourLess(|v|);
    }
  }

  /** What can be decoded: letters of the alphabet and line breaks, but not one letter more
      than whole groups. */
  lemma DecodesIff(s: string)
    ensures Decode(s).Some? <==>
      && (forall i :: 0 <= i < |s| ==> IsDigit64(s[i]) || s[i] == '\r' || s[i] == '\n')
      && Letters(s) % 4 != 1
  {
    StripKeepsLetters(s);
    if AllDigits64(Strip(s)) { FromSextetsIff(Values(Strip(s))); }
  }

  /** Decoding inverts encoding, for every byte sequence. */
  lemma DecodeEncode(b: seq<Byte>)
    ensures Decode(Encode(b)) == Some(b)
  {
    StripKeepsDigits(Encode(b));
    ValuesOfDigits(ToSextets(b));
    FromToSextets(b);
  }

  /** The 43 digits of a 32-byte key with spare bits j. */
  function Spelling(key: seq<Byte>, j: int): (s: string)
    requires |key| == 32 && 0 <= j < 4
    ensures AllDigits64(s) && |s| == 43
  {
    Digits(ToSextets(key)[42 := ToSextets(key)[42] / 4 * 4 + j])
  }

  lemma SpellingValues(key: seq<Byte>, j: int)
    requires |key| == 32 && 0 <= j < 4
    ensures Values(Spelling(key, j)) == ToSextets(key)[42 := ToSextets(key)[42] / 4 * 4 + j]
  {
    ValuesOfDigits(ToSextets(key)[42 := ToSextets(key)[42] / 4 * 4 + j]);
  }

  lemma SpellingsDiffer(key: seq<Byte>, i: int, j: int)
    requires |key| == 32 && 0 <= i < j < 4
    ensures Spelling(key, i) != Spelling(key, j)
  {
    SpellingValues(key, i);
    SpellingValues(key, j);
    assert Values(Spelling(key, i))[42] == ToSextets(key)[42] / 4 * 4 + i;
    assert Values(Spelling(key, j))[42] == ToSextets(key)[42] / 4 * 4 + j;
  }

  lemma SpellingDecodes(key: seq<Byte>, j: int)
    requires |key| == 32 && 0 <= j < 4
    ensures Decode(Spelling(key, j)) == Some(key)
  {
    StripKeepsDigits(Spelling(key, j));
    SpellingValues(key, j);
    SpareBits(Values(Spelling(key, j)), key);
    Packed(ToSextets(key)[42] / 4, j);
  }

  /** Exactly four 43-character spellings decode to a 32-byte key, one of them its encoding. */
  lemma FourSpellings(s: string, key: seq<Byte>)
    requires AllDigits64(s) && |s| == 43 && |key| == 32
    ensures Decode(s) == Some(key) <==> exists j :: 0 <= j < 4 && s == Spelling(key, j)
    ensures forall i, j :: 0 <= i < j < 4 ==> Spelling(key, i) != Spelling(key, j)
    ensures exists j :: 0 <= j < 4 && Encode(key) == Spelling(key, j)
  {
    SpellingOf(s, key);
    forall j | 0 <= j < 4 ensures Decode(Spelling(key, j)) == Some(key) { SpellingDecodes(key, j); }
    forall i, j | 0 <= i < j < 4 ensures Spelling(key, i) != Spelling(key, j) { SpellingsDiffer(key, i, j); }
    DecodeEncode(key);
    SpellingOf(Encode(key), key);
  }

  lemma SpareBitsOf(v: seq<Sextet>, key: seq<Byte>)
    requires |v| == 43 && |key| == 32 && Spells(v, key)
    ensures v == ToSextets(key)[42 := ToSextets(key)[42] / 4 * 4 + v[42] % 4]
  {
    assert v[42] == v[42] / 4 * 4 + v[42] % 4;
  }

  lemma SpelledIsSpelling(s: string, v: seq<Sextet>, key: seq<Byte>)
    requires |v| == 43 && |key| == 32 && Spells(v, key) && s == Digits(v)
    ensures s == Spelling(key, v[42] % 4)
  {
    SpareBitsOf(v, key);
  }

  lemma SpellingOf(s: string, key: seq<Byte>)
    requires AllDigits64(s) && |s| == 43 && |key| == 32
    ensures Decode(s) == Some(key) ==> exists j :: 0 <= j < 4 && s == Spelling(key, j)
  {
    var v := Values(s);
    StripKeepsDigits(s);
    DigitsOfValues(s);
    SpareBits(v, key);
    if Decode(s) == Some(key) { SpelledIsSpelling(s, v, key); }
  }
}
