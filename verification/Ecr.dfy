/** The ECR authorization token: base64 (section 4 of RFC 4648) of user, colon and
    password (section 2 of RFC 7617). Decoded text is held one byte per character. */
module Ecr {
  import opened BuildTypes
  import opened Text

  ghost predicate IsBytes(s: string) {
    forall i :: 0 <= i < |s| ==> s[i] as int < 256
  }

  /** A base64 character: a digit below 64, the padding, or nothing base64 knows. */
  datatype Symbol = Digit(value: int) | Pad | Unknown

  predicate IsDigit(symbol: Symbol) {
    symbol.Digit? && 0 <= symbol.value < 64
  }

  predicate Proper(symbol: Symbol) {
    symbol == Pad || IsDigit(symbol)
  }

  function ToChar(symbol: Symbol): char
    requires Proper(symbol)
  {
    match symbol
    case Pad => '='
    case Digit(v) =>
      if v < 26 then (v + 65) as char
      else if v < 52 then (v + 71) as char
      else if v < 62 then (v - 4) as char
      else if v == 62 then '+' else '/'
  }

  function FromChar(c: char): (symbol: Symbol)
    ensures symbol.Digit? ==> 0 <= symbol.value < 64
  {
    if 'A' <= c <= 'Z' then Digit(c as int - 65)
    else if 'a' <= c <= 'z' then Digit(c as int - 71)
    else if '0' <= c <= '9' then Digit(c as int + 4)
    else if c == '+' then Digit(62)
    else if c == '/' then Digit(63)
    else if c == '=' then Pad
    else Unknown
  }

  lemma CharRoundTrip(symbol: Symbol)
    requires Proper(symbol)
    ensures FromChar(ToChar(symbol)) == symbol
  {
  }

  /** The digits are written with this alphabet ... */
  lemma Alphabet(v: int)
    requires 0 <= v < 64
    ensures ToChar(Digit(v)) ==
            if v < 26 then "ABCDEFGHIJKLMNOPQRSTUVWXYZ"[v]
            else if v < 52 then "abcdefghijklmnopqrstuvwxyz"[v - 26]
            else if v < 62 then "0123456789"[v - 52] else "+/"[v - 62]
  {
    Upper(v);
    Lower(v - 26);
    assert 52 <= v < 62 ==> "0123456789"[v - 52] == (v - 4) as char;
  }

  lemma Upper(v: int)
    ensures 0 <= v < 26 ==> "ABCDEFGHIJKLMNOPQRSTUVWXYZ"[v] == (v + 65) as char
  {
  }

  lemma Lower(v: int)
    ensures 0 <= v < 26 ==> "abcdefghijklmnopqrstuvwxyz"[v] == (v + 97) as char
  {
  }

  /** ... and nothing else is read but the padding. */
  lemma OnlyAlphabet(c: char)
    ensures FromChar(c) == Unknown || c == ToChar(FromChar(c))
    ensures FromChar(c) == Pad <==> c == '='
  {
  }

  /** The symbols of a byte sequence, three bytes to a group of four. */
  function EncodeGroups(s: string): (symbols: seq<Symbol>)
    requires IsBytes(s)
    ensures forall x :: x in symbols ==> Proper(x)
  {
    if s == [] then []
    else
      var a := s[0] as int;
      if |s| == 1 then [Digit(a / 4), Digit(a % 4 * 16), Pad, Pad]
      else
        var b := s[1] as int;
        if |s| == 2 then [Digit(a / 4), Digit(a % 4 * 16 + b / 16), Digit(b % 16 * 4), Pad]
        else
          var c := s[2] as int;
          [Digit(a / 4), Digit(a % 4 * 16 + b / 16), Digit(b % 16 * 4 + c / 64), Digit(c % 64)] + EncodeGroups(s[3..])
  }

  /** Decodes groups of four; only the last one may be padded. */
  function DecodeGroups(t: seq<Symbol>): Result<string> {
    if t == [] then Ok("")
    else if |t| < 4 || !IsDigit(t[0]) || !IsDigit(t[1]) then Err
    else
      var first := (t[0].value * 4 + t[1].value / 16) as char;
      if t[2] == Pad then if t[3] == Pad && |t| == 4 then Ok([first]) else Err
      else if !IsDigit(t[2]) then Err
      else
        var second := (t[1].value % 16 * 16 + t[2].value / 4) as char;
        if t[3] == Pad then if |t| == 4 then Ok([first, second]) else Err
        else if !IsDigit(t[3]) then Err
        else
          var rest := DecodeGroups(t[4..]);
          if rest.Err? then Err
          else Ok([first, second, (t[2].value % 4 * 64 + t[3].value) as char] + rest.value)
  }

  function Encode(s: string): string
    requires IsBytes(s)
  {
    var symbols := EncodeGroups(s);
    seq(|symbols|, i requires 0 <= i < |symbols| => ToChar(symbols[i]))
  }

  function Symbols(t: string): seq<Symbol> {
    seq(|t|, i requires 0 <= i < |t| => FromChar(t[i]))
  }

  function Decode(t: string): Result<string> {
    DecodeGroups(Symbols(t))
  }

  /** The decoder skips line breaks. */
  function WithoutBreaks(t: string): string {
    if t == [] then [] else (if t[0] == '\r' || t[0] == '\n' then [] else [t[0]]) + WithoutBreaks(t[1..])
  }

  function DecodeAuth(token: string): Result<(string, string)> {
    if token == "" then Err
    else
      var decoded := Decode(WithoutBreaks(token));
      if decoded.Err? then Err
      else
        var parts := Cut(decoded.value, ':');
        if parts.None? then Err else Ok(parts.value)
  }

  /** The digits of a group hold its bytes. */
  lemma GroupValues(a: int, b: int, c: int)
    requires 0 <= a < 256 && 0 <= b < 256 && 0 <= c < 256
    ensures 0 <= a / 4 < 64 && 0 <= a % 4 * 16 + b / 16 < 64 && 0 <= b % 16 * 4 + c / 64 < 64
    ensures a / 4 * 4 + (a % 4 * 16 + b / 16) / 16 == a
    ensures (a % 4 * 16 + b / 16) % 16 * 16 + (b % 16 * 4 + c / 64) / 4 == b
    ensures (b % 16 * 4 + c / 64) % 4 * 64 + c % 64 == c
  {
  }

  lemma DecodeGroup(a: int, b: int, c: int, d: int, rest: seq<Symbol>)
    requires IsDigit(Digit(a)) && IsDigit(Digit(b)) && IsDigit(Digit(c)) && IsDigit(Digit(d))
    requires DecodeGroups(rest).Ok?
    ensures DecodeGroups([Digit(a), Digit(b), Digit(c), Digit(d)] + rest) ==
            Ok([(a * 4 + b / 16) as char, (b % 16 * 16 + c / 4) as char, (c % 4 * 64 + d) as char]
               + DecodeGroups(rest).value)
  {
    var t := [Digit(a), Digit(b), Digit(c), Digit(d)] + rest;
    assert t[0] == Digit(a) && t[1] == Digit(b) && t[2] == Digit(c) && t[3] == Digit(d);
    assert t[4..] == rest && |t| >= 4;
    assert DecodeGroups(t).Ok?;
  }

  lemma DecodeOne(a: int)
    requires 0 <= a < 256
    ensures DecodeGroups([Digit(a / 4), Digit(a % 4 * 16), Pad, Pad]) == Ok([a as char])
  {
    GroupValues(a, 0, 0);
  }

  lemma DecodeTwo(a: int, b: int)
    requires 0 <= a < 256 && 0 <= b < 256
    ensures DecodeGroups([Digit(a / 4), Digit(a % 4 * 16 + b / 16), Digit(b % 16 * 4), Pad]) ==
            Ok([a as char, b as char])
  {
    GroupValues(a, b, 0);
  }

  lemma DecodeThree(t: seq<Symbol>, a: int, b: int, c: int, rest: seq<Symbol>)
    requires 0 <= a < 256 && 0 <= b < 256 && 0 <= c < 256 && DecodeGroups(rest).Ok?
    requires t == [Digit(a / 4), Digit(a % 4 * 16 + b / 16), Digit(b % 16 * 4 + c / 64), Digit(c % 64)] + rest
    ensures DecodeGroups(t) == Ok([a as char, b as char, c as char] + DecodeGroups(rest).value)
  {
    GroupValues(a, b, c);
    DecodeGroup(a / 4, a % 4 * 16 + b / 16, b % 16 * 4 + c / 64, c % 64, rest);
  }

  lemma LastByte(t: seq<Symbol>, s: string)
    requires IsBytes(s) && |s| == 1 && t == [Digit(s[0] as int / 4), Digit(s[0] as int % 4 * 16), Pad, Pad]
    ensures DecodeGroups(t) == Ok(s)
  {
    DecodeOne(s[0] as int);
    assert s == [s[0]];
  }

  lemma LastTwoBytes(t: seq<Symbol>, s: string)
    requires IsBytes(s) && |s| == 2
    requires var a, b := s[0] as int, s[1] as int;
             t == [Digit(a / 4), Digit(a % 4 * 16 + b / 16), Digit(b % 16 * 4), Pad]
    ensures DecodeGroups(t) == Ok(s)
  {
    DecodeTwo(s[0] as int, s[1] as int);
    assert s == [s[0], s[1]];
  }

  lemma NextThreeBytes(t: seq<Symbol>, s: string, rest: seq<Symbol>)
    requires IsBytes(s) && |s| >= 3 && DecodeGroups(rest) == Ok(s[3..])
    requires var a, b, c := s[0] as int, s[1] as int, s[2] as int;
             t == [Digit(a / 4), Digit(a % 4 * 16 + b / 16), Digit(b % 16 * 4 + c / 64), Digit(c % 64)] + rest
    ensures DecodeGroups(t) == Ok(s)
  {
    DecodeThree(t, s[0] as int, s[1] as int, s[2] as int, rest);
    assert s == [s[0], s[1], s[2]] + s[3..];
  }

  /** A group of four digits stands for the same number as its three bytes, first byte and first digit highest; a
      padded group for its bytes with zero bits behind them. */
  lemma GroupIsNumber(s: string)
    requires IsBytes(s) && s != []
    ensures var t, a := EncodeGroups(s), s[0] as int;
            && |t| >= 4 && t[0].Digit? && t[1].Digit?
            && (|s| == 1 ==> t[2..] == [Pad, Pad] && t[0].value * 64 + t[1].value == a * 16)
            && (|s| == 2 ==>
                  && t[2].Digit? && t[3..] == [Pad]
                  && (t[0].value * 64 + t[1].value) * 64 + t[2].value == (a * 256 + s[1] as int) * 4)
            && (|s| >= 3 ==>
                  && t[2].Digit? && t[3].Digit? && t[4..] == EncodeGroups(s[3..])
                  && ((t[0].value * 64 + t[1].value) * 64 + t[2].value) * 64 + t[3].value ==
                     (a * 256 + s[1] as int) * 256 + s[2] as int)
  {
  }

  lemma {:induction false} GroupsRoundTrip(s: string)
    requires IsBytes(s)
    ensures DecodeGroups(EncodeGroups(s)) == Ok(s)
  {
    if s == [] {
    } else if |s| == 1 {
      LastByte(EncodeGroups(s), s);
    } else if |s| == 2 {
      LastTwoBytes(EncodeGroups(s), s);
    } else {
      GroupsRoundTrip(s[3..]);
      NextThreeBytes(EncodeGroups(s), s, EncodeGroups(s[3..]));
    }
  }

  /** The padding at the end of a text, up to two places. */
  ghost function Pads(t: seq<Symbol>): nat {
    var n := |t|;
    if n == 0 || t[n - 1] != Pad then 0 else if n == 1 || t[n - 2] != Pad then 1 else 2
  }

  /** Whole groups of digits but for the padding. */
  ghost predicate Shaped(t: seq<Symbol>) {
    |t| % 4 == 0 && forall i :: 0 <= i < |t| - Pads(t) ==> IsDigit(t[i])
  }

  ghost predicate DigitGroup(t: seq<Symbol>)
    requires |t| >= 4
  {
    IsDigit(t[0]) && IsDigit(t[1]) && IsDigit(t[2]) && IsDigit(t[3])
  }

  /** Exactly such texts are decoded, three bytes to a group but for the padding. */
  lemma {:induction false} DecodedIfShaped(t: seq<Symbol>)
    ensures DecodeGroups(t).Ok? <==> Shaped(t)
    ensures Shaped(t) ==> |DecodeGroups(t).value| == |t| / 4 * 3 - Pads(t)
  {
    if |t| == 4 {
      assert t[4..] == [];
    } else if |t| > 4 {
      DecodedIfShaped(t[4..]);
      FirstGroupDecoded(t);
      FirstGroupShaped(t);
    }
  }

  lemma FirstGroupDecoded(t: seq<Symbol>)
    requires |t| > 4
    ensures DecodeGroups(t).Ok? <==> DigitGroup(t) && DecodeGroups(t[4..]).Ok?
    ensures DecodeGroups(t).Ok? ==> |DecodeGroups(t).value| == 3 + |DecodeGroups(t[4..]).value|
  {
  }

  lemma FirstGroupShaped(t: seq<Symbol>)
    requires |t| > 4
    ensures Shaped(t) <==> DigitGroup(t) && Shaped(t[4..])
    ensures Shaped(t) ==> Pads(t[4..]) == Pads(t)
  {
    var rest := t[4..];
    assert forall i :: 4 <= i < |t| ==> t[i] == rest[i - 4];
    if DigitGroup(t) && Shaped(rest) {
      assert Pads(rest) == Pads(t);
      forall i | 0 <= i < |t| - Pads(t) ensures IsDigit(t[i]) {
        if i >= 4 { assert IsDigit(rest[i - 4]); }
      }
    }
  }

  /** Line breaks make no difference, anything else stays. */
  lemma {:induction false} BreaksAreSkipped(t: string, u: string, c: char)
    ensures c == '\r' || c == '\n' ==> WithoutBreaks(t + [c] + u) == WithoutBreaks(t + u)
    ensures '\r' !in t && '\n' !in t ==> WithoutBreaks(t) == t
  {
    if t == [] {
      assert t + [c] + u == [c] + u && t + u == u;
    } else {
      BreaksAreSkipped(t[1..], u, c);
      assert (t + [c] + u)[1..] == t[1..] + [c] + u && (t + u)[1..] == t[1..] + u;
    }
  }

  /** Decoding undoes encoding, for every sequence of bytes. */
  lemma Base64RoundTrip(s: string)
    requires IsBytes(s)
    ensures Decode(Encode(s)) == Ok(s)
  {
    var symbols := EncodeGroups(s);
    forall i | 0 <= i < |symbols| ensures Symbols(Encode(s))[i] == symbols[i] {
      assert symbols[i] in symbols;
      CharRoundTrip(symbols[i]);
    }
    assert Symbols(Encode(s)) == symbols;
    GroupsRoundTrip(s);
  }

  /** A token of a user without colon and any password, broken into lines anywhere, gives
      back exactly the pair. */
  lemma TokenRoundTrip(user: string, password: string, token: string)
    requires IsBytes(user + ":" + password) && ':' !in user
    requires WithoutBreaks(token) == Encode(user + ":" + password)
    ensures DecodeAuth(token) == Ok((user, password))
  {
    Base64RoundTrip(user + ":" + password);
    CutAt(user, password, ':');
    assert token != "";
  }

  /** A token is accepted exactly when it decodes to a text with a colon, and
      the pair is that text cut at its first colon. */
  lemma TokenAccepted(token: string)
    ensures DecodeAuth(token).Ok? <==>
            (Decode(WithoutBreaks(token)).Ok? && ':' in Decode(WithoutBreaks(token)).value)
    ensures DecodeAuth(token).Ok? ==>
            var (user, password) := DecodeAuth(token).value;
            Decode(WithoutBreaks(token)).value == user + ":" + password && ':' !in user
  {
    if token == "" { assert Symbols(WithoutBreaks(token)) == []; }
  }
}
