/** The argument encoding between the control plane and the remote shim, on UTF-8 bytes: literal or
    base64 tokens (section 4 of RFC 4648), joined by spaces, split and decoded on the other side. */
module Shim {

  import opened Prelude

  const SPACE: byte := 32
  const TAB: byte := 9
  const PAD: byte := 61
  const PREFIX: Bytes := [98, 54, 52, 58]   // b64:

  // ---------------------------------------------------------------- base64

  function Digit(v: int): byte
    requires 0 <= v < 64
  {
    if v < 26 then 65 + v else if v < 52 then 71 + v else if v < 62 then v - 4 else if v == 62 then 43 else 47
  }

  /** The value of a base64 digit; -1 outside the alphabet. */
  function DigitValue(c: byte): int {
    if 65 <= c < 91 then c - 65 else if 97 <= c < 123 then c - 71 else if 48 <= c < 58 then c + 4
    else if c == 43 then 62 else if c == 47 then 63 else -1
  }

  function Quad(a: byte, b: byte, c: byte): (t: Bytes)
    ensures |t| == 4
  {
    [Digit(a / 4), Digit(a % 4 * 16 + b / 16), Digit(b % 16 * 4 + c / 64), Digit(c % 64)]
  }

  function Encode64(bs: Bytes): Bytes {
    if |bs| == 0 then []
    else if |bs| == 1 then Quad(bs[0], 0, 0)[..2] + [PAD, PAD]
    else if |bs| == 2 then Quad(bs[0], bs[1], 0)[..3] + [PAD]
    else Quad(bs[0], bs[1], bs[2]) + Encode64(bs[3..])
  }

  function First(p: int, q: int): byte
    requires 0 <= p < 64 && 0 <= q < 64
  {
    p * 4 + q / 16
  }

  function Second(q: int, r: int): byte
    requires 0 <= q < 64 && 0 <= r < 64
  {
    q % 16 * 16 + r / 4
  }

  function Third(r: int, s: int): byte
    requires 0 <= r < 64 && 0 <= s < 64
  {
    r % 4 * 64 + s
  }

  /** `base64 -d` on one line: padding only at the end; spare bits are not checked. */
  function Decode64(t: Bytes): Option<Bytes> {
    if |t| == 0 then Some([])
    else if |t| < 4 || DigitValue(t[0]) < 0 || DigitValue(t[1]) < 0 then None
    else
      var p, q := DigitValue(t[0]), DigitValue(t[1]);
      if |t| == 4 && t[2] == PAD && t[3] == PAD then Some([First(p, q)])
      else if DigitValue(t[2]) < 0 then None
      else
        var r := DigitValue(t[2]);
        if |t| == 4 && t[3] == PAD then Some([First(p, q), Second(q, r)])
        else if DigitValue(t[3]) < 0 then None
        else
          match Decode64(t[4..])
          case None => None
          case Some(rest) => Some([First(p, q), Second(q, r), Third(r, DigitValue(t[3]))] + rest)
  }

  lemma DigitInverse(v: int)
    requires 0 <= v < 64
    ensures DigitValue(Digit(v)) == v && Digit(v) != PAD
  {
  }

  lemma QuadInverse(a: byte, b: byte, c: byte)
    ensures var t := Quad(a, b, c);
            && (forall k :: 0 <= k < 4 ==> DigitValue(t[k]) >= 0 && t[k] != PAD)
            && First(DigitValue(t[0]), DigitValue(t[1])) == a
            && Second(DigitValue(t[1]), DigitValue(t[2])) == b
            && Third(DigitValue(t[2]), DigitValue(t[3])) == c
  {
    DigitInverse(a / 4);
    DigitInverse(a % 4 * 16 + b / 16);
    DigitInverse(b % 16 * 4 + c / 64);
    DigitInverse(c % 64);
  }

  /** Decoding one full group, whatever follows it. */
  lemma DecodeGroup(t: Bytes, rest: Bytes)
    requires |t| == 4 && forall k :: 0 <= k < 4 ==> DigitValue(t[k]) >= 0 && t[k] != PAD
    ensures Decode64(t + rest)
            == match Decode64(rest)
               case None => None
               case Some(more) =>
                 Some([First(DigitValue(t[0]), DigitValue(t[1])), Second(DigitValue(t[1]), DigitValue(t[2])),
                       Third(DigitValue(t[2]), DigitValue(t[3]))] + more)
  {
    hide First, Second, Third, DigitValue;
    var s := t + rest;
    assert s[0] == t[0] && s[1] == t[1] && s[2] == t[2] && s[3] == t[3] && s[4..] == rest;
  }

  /** Decoding a padded last group of one or two bytes. */
  lemma DecodeTail(t: Bytes)
    requires |t| == 4 && forall k :: 0 <= k < 4 ==> DigitValue(t[k]) >= 0 && t[k] != PAD
    ensures Decode64(t[..2] + [PAD, PAD]) == Some([First(DigitValue(t[0]), DigitValue(t[1]))])
    ensures Decode64(t[..3] + [PAD])
            == Some([First(DigitValue(t[0]), DigitValue(t[1])), Second(DigitValue(t[1]), DigitValue(t[2]))])
  {
    hide First, Second, Third, DigitValue;
    var one, two := t[..2] + [PAD, PAD], t[..3] + [PAD];
    assert one[0] == t[0] && one[1] == t[1] && one[2] == PAD && one[3] == PAD;
    assert two[0] == t[0] && two[1] == t[1] && two[2] == t[2] && two[3] == PAD;
  }

  /** The alphabet of table 1 in section 4 of RFC 4648. */
  lemma DigitsByTable(v: int)
    requires 0 <= v < 64
    ensures 0 <= v < 26 ==> Digit(v) == 'A' as int + v && Digit(v) <= 'Z' as int
    ensures 26 <= v < 52 ==> Digit(v) == 'a' as int + v - 26 && Digit(v) <= 'z' as int
    ensures 52 <= v < 62 ==> Digit(v) == '0' as int + v - 52 && Digit(v) <= '9' as int
    ensures Digit(62) == '+' as int && Digit(63) == '/' as int
  {
  }

  /** Three bytes, read as one number, are their four digits read in base 64; a last group of one or two
      bytes is filled up with zeros, and its missing digits are padding. */
  lemma GroupsByValue(bs: Bytes)
    requires bs != []
    ensures var t := Encode64(bs);
            var b, c := if |bs| > 1 then bs[1] else 0, if |bs| > 2 then bs[2] else 0;
            && |t| >= 4 && DigitValue(t[0]) >= 0 && DigitValue(t[1]) >= 0
            && (if |bs| > 1 then DigitValue(t[2]) >= 0 else t[2] == PAD)
            && (if |bs| > 2 then DigitValue(t[3]) >= 0 else t[3] == PAD)
            && 65536 * (bs[0] as int) + 256 * (b as int) + c as int
               == 262144 * DigitValue(t[0]) + 4096 * DigitValue(t[1])
                  + (if |bs| > 1 then 64 * DigitValue(t[2]) else 0) + (if |bs| > 2 then DigitValue(t[3]) else 0)
            && t[4..] == (if |bs| > 3 then Encode64(bs[3..]) else [])
  {
    var b: byte := if |bs| > 1 then bs[1] else 0;
    var c: byte := if |bs| > 2 then bs[2] else 0;
    DigitInverse(bs[0] / 4);
    DigitInverse(bs[0] % 4 * 16 + b / 16);
    DigitInverse(b % 16 * 4 + c / 64);
    DigitInverse(c % 64);
    hide Digit, DigitValue;
    assert Encode64([]) == [];
    if |bs| == 3 { assert bs[3..] == []; }
  }

  lemma {:induction false} Base64RoundTrip(bs: Bytes)
    ensures Decode64(Encode64(bs)) == Some(bs)
  {
    hide DigitValue, Digit, Decode64, First, Second, Third, Quad;
    if |bs| == 0 {
      DecodeNothing();
    } else {
      var b, c := if |bs| > 1 then bs[1] else 0, if |bs| > 2 then bs[2] else 0;
      QuadInverse(bs[0], b, c);
      if |bs| < 3 {
        var t := Quad(bs[0], b, c);
        DecodeTail(t);
        if |bs| == 1 {
          assert Encode64(bs) == t[..2] + [PAD, PAD] && bs == [bs[0]];
        } else {
          assert Encode64(bs) == t[..3] + [PAD] && bs == [bs[0], bs[1]];
        }
      } else {
        DecodeGroup(Quad(bs[0], b, c), Encode64(bs[3..]));
        Base64RoundTrip(bs[3..]);
        assert bs == [bs[0], b, c] + bs[3..];
      }
    }
  }

  lemma DecodeNothing()
    ensures Decode64([]) == Some([])
  {
  }

  // ---------------------------------------------------------------- encoding

  /** A byte the literal-token pattern admits. */
  predicate Plain(c: byte) {
    || 65 <= c < 91 || 97 <= c < 123 || 48 <= c < 58
    || c == 46 || c == 95 || c == 47 || c == 64 || c == 58 || c == PAD || c == 43 || c == 44 || c == 45
  }

  predicate HasTraversal(v: Bytes) {
    exists k :: 0 <= k < |v| - 1 && v[k] == 46 && v[k + 1] == 46
  }

  predicate Literal(v: Bytes) {
    v != [] && (forall k :: 0 <= k < |v| ==> Plain(v[k])) && !HasTraversal(v) && !(PREFIX <= v)
  }

  /** None is the ValueError for a NUL. */
  function EncodeArg(v: Bytes): Option<Bytes> {
    if 0 in v then None
    else if Literal(v) then Some(v)
    else Some(PREFIX + Encode64(v))
  }

  /** The characters a literal token may have. */
  predicate Listed(c: char) {
    'A' <= c <= 'Z' || 'a' <= c <= 'z' || '0' <= c <= '9' || c in {'.', '_', '/', '@', ':', '=', '+', ',', '-'}
  }

  lemma PlainByTable(c: byte)
    ensures Plain(c) <==> Listed(c as char)
  {
  }

  /** An argument is refused exactly for a NUL, and sent as it is exactly if it is not empty, has only listed
      characters, no `..`, and does not begin like an encoded one. */
  lemma SentAsIs(v: Bytes)
    ensures EncodeArg(v) == None <==> exists k :: 0 <= k < |v| && v[k] == 0
    ensures EncodeArg(v) == Some(v) <==>
            && v != [] && (forall k :: 0 <= k < |v| ==> Listed(v[k] as char))
            && !(exists k :: 0 <= k < |v| - 1 && v[k] as char == '.' && v[k + 1] as char == '.')
            && !(|v| >= 4 && v[0] as char == 'b' && v[1] as char == '6' && v[2] as char == '4' && v[3] as char == ':')
  {
    LongerEncoded(v);
    forall k | 0 <= k < |v| ensures Plain(v[k]) <==> Listed(v[k] as char) { PlainByTable(v[k]); }
    DotsAre(v);
    hide Encode64, Listed, HasTraversal;
    if forall k :: 0 <= k < |v| ==> Listed(v[k] as char) {
      NoNul(v);
    }
  }

  lemma NoNul(v: Bytes)
    requires forall k :: 0 <= k < |v| ==> Listed(v[k] as char)
    ensures 0 !in v
  {
  }

  lemma DotsAre(v: Bytes)
    ensures HasTraversal(v) <==> exists k :: 0 <= k < |v| - 1 && v[k] as char == '.' && v[k + 1] as char == '.'
    ensures PREFIX <= v <==>
            |v| >= 4 && v[0] as char == 'b' && v[1] as char == '6' && v[2] as char == '4' && v[3] as char == ':'
  {
    assert '.' as int == 46 && 'b' as int == 98 && '6' as int == 54 && '4' as int == 52 && ':' as int == 58;
    assert |PREFIX| == 4;
  }

  function EncodeAll(args: seq<Bytes>): Option<seq<Bytes>> {
    if args == [] then Some([])
    else
      match EncodeArg(args[0])
      case None => None
      case Some(t) =>
        match EncodeAll(args[1..])
        case None => None
        case Some(ts) => Some([t] + ts)
  }

  /** " ".join(tokens) */
  function Join(tokens: seq<Bytes>): Bytes {
    if tokens == [] then [] else if |tokens| == 1 then tokens[0] else tokens[0] + [SPACE] + Join(tokens[1..])
  }

  lemma {:induction false} Encode64Plain(bs: Bytes)
    ensures forall k :: 0 <= k < |Encode64(bs)| ==> Plain(Encode64(bs)[k])
  {
    if |bs| >= 3 { Encode64Plain(bs[3..]); }
  }

  predicate Blank(c: byte) {
    c == SPACE || c == TAB
  }

  predicate Word(t: Bytes) {
    t != [] && forall k :: 0 <= k < |t| ==> !Blank(t[k]) && t[k] != 10 && t[k] != 13
  }

  /** Every encoded token is non-empty and holds no whitespace, newline or quoting character. */
  lemma TokensAreWords(v: Bytes)
    requires 0 !in v
    ensures EncodeArg(v).Some? && Word(EncodeArg(v).value)
    ensures forall k :: 0 <= k < |EncodeArg(v).value| ==> Plain(EncodeArg(v).value[k])
  {
    Encode64Plain(v);
  }

  // ---------------------------------------------------------------- the remote side

  /** `read -r -a`: split on runs of blanks. */
  function Words(s: Bytes): seq<Bytes>
    decreases |s|
  {
    if s == [] then []
    else if Blank(s[0]) then Words(s[1..])
    else
      var n := WordLength(s);
      [s[..n]] + Words(s[n..])
  }

  /** Blanks are spaces and tabs; they separate words however many there are, and make none of their own. */
  lemma BlanksSeparate(s: Bytes, c: byte)
    ensures Blank(c) <==> c as char == ' ' || c as char == '\t'
    ensures Blank(c) ==> Words([c] + s) == Words(s)
    ensures s != [] && !Blank(c) && !Blank(s[0]) ==> Words([c] + s) == [[c] + Words(s)[0]] + Words(s)[1..]
    ensures s != [] && !Blank(c) && Blank(s[0]) ==> Words([c] + s) == [[c]] + Words(s)
  {
    var t := [c] + s;
    assert t[1..] == s;
    if s != [] && !Blank(c) {
      assert t[..1 + WordLength(s)] == [c] + s[..WordLength(s)];
      assert t[1 + WordLength(s)..] == s[WordLength(s)..];
    }
  }

  function WordLength(s: Bytes): (n: nat)
    ensures n <= |s|
    ensures s != [] && !Blank(s[0]) ==> n > 0
  {
    if s == [] || Blank(s[0]) then 0 else 1 + WordLength(s[1..])
  }

  /** A shell variable cannot hold a NUL. */
  function DropNul(v: Bytes): (r: Bytes)
    ensures 0 !in r
    ensures 0 !in v ==> r == v
  {
    if v == [] then [] else if v[0] == 0 then DropNul(v[1..]) else [v[0]] + DropNul(v[1..])
  }

  /** decode_args on one token: None is a refusal. */
  function DecodeToken(t: Bytes): Option<Bytes> {
    if PREFIX <= t then
      match Decode64(t[|PREFIX|..])
      case None => None
      case Some(v) => if Encode64(DropNul(v)) == t[|PREFIX|..] then Some(DropNul(v)) else None
    else Some(t)
  }

  function DecodeAll(tokens: seq<Bytes>): Option<seq<Bytes>> {
    if tokens == [] then Some([])
    else
      match DecodeAll(tokens[..|tokens| - 1])
      case None => None
      case Some(vs) =>
        match DecodeToken(tokens[|tokens| - 1])
        case None => None
        case Some(v) => Some(vs + [v])
  }

  method DecodeArgs(tokens: seq<Bytes>) returns (decoded: Option<seq<Bytes>>)
    ensures decoded == DecodeAll(tokens)
  {
    var values: seq<Bytes> := [];
    var k := 0;
    while k < |tokens|
      invariant 0 <= k <= |tokens|
      invariant DecodeAll(tokens[..k]) == Some(values)
    {
      assert tokens[..k + 1][..k] == tokens[..k];
      var v := DecodeToken(tokens[k]);
      if v.None? {
        RefusalSticks(tokens, k + 1);
        return None;
      }
      values := values + [v.value];
      k := k + 1;
    }
    assert tokens[..k] == tokens;
    return Some(values);
  }

  lemma {:induction false} RefusalSticks(tokens: seq<Bytes>, n: nat)
    requires n <= |tokens| && DecodeAll(tokens[..n]).None?
    ensures DecodeAll(tokens).None?
    decreases |tokens|
  {
    if n == |tokens| {
      assert tokens[..n] == tokens;
    } else {
      assert tokens[..|tokens| - 1][..n] == tokens[..n];
      RefusalSticks(tokens[..|tokens| - 1], n);
    }
  }

  /** The shim accepts an encoded token exactly if it is the canonical encoding of a NUL-free argument. */
  lemma AcceptsCanonicalOnly(t: Bytes, v: Bytes)
    requires PREFIX <= t
    ensures DecodeToken(t) == Some(v) <==> 0 !in v && t == PREFIX + Encode64(v)
  {
    Base64RoundTrip(v);
    if 0 !in v && t == PREFIX + Encode64(v) {
      assert t[|PREFIX|..] == Encode64(v);
    }
    assert t == PREFIX + t[|PREFIX|..];
  }

  lemma ArgRoundTrip(v: Bytes)
    requires 0 !in v
    ensures DecodeToken(EncodeArg(v).value) == Some(v)
  {
    if !Literal(v) {
      AcceptsCanonicalOnly(PREFIX + Encode64(v), v);
    }
  }

  lemma EncodingInjective(v: Bytes, w: Bytes)
    requires 0 !in v && 0 !in w && EncodeArg(v) == EncodeArg(w)
    ensures v == w
  {
    ArgRoundTrip(v);
    ArgRoundTrip(w);
  }

  // ---------------------------------------------------------------- whole commands

  lemma {:induction false} WordLengthIs(t: Bytes, rest: Bytes)
    requires forall k :: 0 <= k < |t| ==> !Blank(t[k])
    requires rest == [] || Blank(rest[0])
    ensures WordLength(t + rest) == |t|
  {
    if t == [] {
      assert t + rest == rest;
    } else {
      assert (t + rest)[0] == t[0] && (t + rest)[1..] == t[1..] + rest;
      WordLengthIs(t[1..], rest);
    }
  }

  lemma {:induction false} SplitJoin(tokens: seq<Bytes>)
    requires forall k :: 0 <= k < |tokens| ==> Word(tokens[k])
    ensures Words(Join(tokens)) == tokens
  {
    if tokens == [] {
    } else {
      var t := tokens[0];
      var rest := if |tokens| == 1 then [] else [SPACE] + Join(tokens[1..]);
      assert Join(tokens) == t + rest;
      WordLengthIs(t, rest);
      assert (t + rest)[0] == t[0] && (t + rest)[..|t|] == t && (t + rest)[|t|..] == rest;
      assert Words(t + rest) == [t] + Words(rest);
      if |tokens| > 1 {
        assert rest[1..] == Join(tokens[1..]);
        SplitJoin(tokens[1..]);
      } else {
        assert tokens == [t];
      }
    }
  }

  lemma {:induction false} EncodeAllTokens(args: seq<Bytes>)
    requires forall k :: 0 <= k < |args| ==> 0 !in args[k]
    ensures EncodeAll(args).Some? && |EncodeAll(args).value| == |args|
    ensures forall k :: 0 <= k < |args| ==> EncodeArg(args[k]) == Some(EncodeAll(args).value[k])
  {
    hide EncodeArg;
    if args != [] {
      NulFree(args[0]);
      EncodeAllTokens(args[1..]);
    }
  }

  lemma NulFree(v: Bytes)
    ensures EncodeArg(v).Some? <==> 0 !in v
  {
  }

  lemma {:induction false} DecodeEach(tokens: seq<Bytes>, values: seq<Bytes>)
    requires |tokens| == |values|
    requires forall k :: 0 <= k < |tokens| ==> DecodeToken(tokens[k]) == Some(values[k])
    ensures DecodeAll(tokens) == Some(values)
  {
    hide DecodeToken;
    if tokens != [] {
      var n := |tokens| - 1;
      DecodeEach(tokens[..n], values[..n]);
      assert values == values[..n] + [values[n]];
    }
  }

  /** Splitting the joined command on blanks gives the tokens back, and decoding every token gives
      the arguments back, for every list of NUL-free arguments. */
  lemma CommandRoundTrip(args: seq<Bytes>)
    requires forall k :: 0 <= k < |args| ==> 0 !in args[k]
    ensures EncodeAll(args).Some?
    ensures Words(Join(EncodeAll(args).value)) == EncodeAll(args).value
    ensures DecodeAll(Words(Join(EncodeAll(args).value))) == Some(args)
  {
    hide EncodeAll, EncodeArg, DecodeToken, Join, Words, Word;
    EncodeAllTokens(args);
    var tokens := EncodeAll(args).value;
    forall k | 0 <= k < |args| ensures Word(tokens[k]) && DecodeToken(tokens[k]) == Some(args[k]) {
      TokensAreWords(args[k]);
      ArgRoundTrip(args[k]);
    }
    SplitJoin(tokens);
    DecodeEach(tokens, args);
  }

  /** The shim reads the verb without decoding it: a command reaches it as sent exactly if the verb
      needed no encoding. */
  lemma VerbMustBeLiteral(args: seq<Bytes>)
    requires args != [] && forall k :: 0 <= k < |args| ==> 0 !in args[k]
    ensures EncodeAll(args).Some?
    ensures var words := Words(Join(EncodeAll(args).value));
            && |words| == |args| && DecodeAll(words[1..]) == Some(args[1..])
            && (words[0] == args[0] <==> Literal(args[0]))
  {
    CommandRoundTrip(args);
    EncodeAllTokens(args);
    var tokens := EncodeAll(args).value;
    hide Words, Join;
    forall k | 0 <= k < |args| - 1 ensures DecodeToken(tokens[1..][k]) == Some(args[1..][k]) {
      assert tokens[1..][k] == tokens[k + 1] && args[1..][k] == args[k + 1];
      ArgRoundTrip(args[k + 1]);
    }
    DecodeEach(tokens[1..], args[1..]);
    if !Literal(args[0]) {
      LongerEncoded(args[0]);
    }
  }

  lemma {:induction false} LongerEncoded(v: Bytes)
    ensures |Encode64(v)| >= |v|
  {
    if |v| >= 3 { LongerEncoded(v[3..]); }
  }
}
