/** The names of src/payload.rs as text: what the byte-level checks of the container mean for
    the characters they encode. */
module Names {
  import opened Types
  import opened Payload

  /** A Unicode scalar value: any code point but a surrogate. */
  type Scalar = c: int | 0 <= c < 0x11_0000 && !(0xD800 <= c < 0xE000)

  /** UTF-8, section 3 of RFC 3629. */
  function Encode(c: Scalar): Bytes {
    if c < 0x80 then [c]
    else if c < 0x800 then [0xC0 + c / 64, 0x80 + c % 64]
    else if c < 0x1_0000 then [0xE0 + c / 4096, 0x80 + c / 64 % 64, 0x80 + c % 64]
    else [0xF0 + c / 0x4_0000, 0x80 + c / 4096 % 64, 0x80 + c / 64 % 64, 0x80 + c % 64]
  }

  function EncodeText(text: seq<Scalar>): Bytes {
    if text == [] then [] else Encode(text[0]) + EncodeText(text[1..])
  }

  lemma EncodedIsUtf8(c: Scalar, rest: Bytes)
    ensures Utf8(Encode(c) + rest) <==> Utf8(rest)
  {
    var s := Encode(c) + rest;
    assert s[|Encode(c)|..] == rest;
  }

  /** A base-64 digit in front of another. */
  lemma Digits(a: nat, d: nat)
    requires d < 64
    ensures (a * 64 + d) / 64 == a && (a * 64 + d) % 64 == d
  {}

  /** The number that two, three and four bytes stand for. */
  lemma TwoBytes(a: nat, d: nat)
    requires 2 <= a < 32 && d < 64
    ensures Encode(a * 64 + d) == [0xC0 + a, 0x80 + d]
  {
    Digits(a, d);
  }

  lemma ThreeBytes(a: nat, d: nat, e: nat)
    requires a < 16 && d < 64 && e < 64 && (a == 0 ==> d >= 32) && (a == 13 ==> d < 32)
    ensures Encode((a * 64 + d) * 64 + e) == [0xE0 + a, 0x80 + d, 0x80 + e]
  {
    var c := (a * 64 + d) * 64 + e;
    Digits(a * 64 + d, e);
    Digits(a, d);
    assert c / 4096 == c / 64 / 64;
  }

  lemma FourBytes(a: nat, d: nat, e: nat, f: nat)
    requires a <= 4 && d < 64 && e < 64 && f < 64 && (a == 0 ==> d >= 16) && (a == 4 ==> d < 16)
    ensures Encode(((a * 64 + d) * 64 + e) * 64 + f) == [0xF0 + a, 0x80 + d, 0x80 + e, 0x80 + f]
  {
    var c := ((a * 64 + d) * 64 + e) * 64 + f;
    Digits((a * 64 + d) * 64 + e, f);
    Digits(a * 64 + d, e);
    Digits(a, d);
    assert c / 4096 == c / 64 / 64 && c / 0x4_0000 == c / 64 / 64 / 64;
  }

  /** The character at the head of well-formed bytes. */
  lemma HeadIsEncoded(s: Bytes) returns (c: Scalar)
    requires s != [] && Utf8(s)
    ensures Encode(c) <= s && Utf8(s[|Encode(c)|..])
  {
    hide Encode;
    if s[0] < 0x80 {
      c := s[0];
      OneByte(c);
    } else if s[0] <= 0xDF {
      c := (s[0] as int - 0xC0) * 64 + (s[1] as int - 0x80);
      TwoBytes(s[0] as int - 0xC0, s[1] as int - 0x80);
    } else if s[0] <= 0xEF {
      c := ((s[0] as int - 0xE0) * 64 + (s[1] as int - 0x80)) * 64 + (s[2] as int - 0x80);
      ThreeBytes(s[0] as int - 0xE0, s[1] as int - 0x80, s[2] as int - 0x80);
    } else {
      c := (((s[0] as int - 0xF0) * 64 + (s[1] as int - 0x80)) * 64 + (s[2] as int - 0x80)) * 64 + (s[3] as int - 0x80);
      FourBytes(s[0] as int - 0xF0, s[1] as int - 0x80, s[2] as int - 0x80, s[3] as int - 0x80);
    }
  }

  lemma OneByte(c: Scalar)
    requires c < 0x80
    ensures Encode(c) == [c]
  {}

  lemma {:induction false} TextIsUtf8(text: seq<Scalar>)
    ensures Utf8(EncodeText(text))
  {
    hide Utf8, Encode;
    if text == [] {
      assert Utf8([]) by { NothingIsUtf8(); }
    } else {
      TextIsUtf8(text[1..]);
      EncodedIsUtf8(text[0], EncodeText(text[1..]));
    }
  }

  lemma NothingIsUtf8()
    ensures Utf8([])
  {}

  lemma {:induction false} Utf8IsText(s: Bytes) returns (text: seq<Scalar>)
    requires Utf8(s)
    ensures EncodeText(text) == s
    decreases |s|
  {
    hide Utf8;
    if s == [] {
      text := [];
    } else {
      var c := HeadIsEncoded(s);
      var more := Utf8IsText(s[|Encode(c)|..]);
      text := [c] + more;
      assert text[1..] == more;
      assert s == Encode(c) + s[|Encode(c)|..];
    }
  }

  /** The bytes the reader takes for a string are exactly the encodings of text. */
  lemma Utf8IsExactlyText(s: Bytes)
    ensures Utf8(s) <==> exists text :: EncodeText(text) == s
  {
    hide Utf8, EncodeText;
    if Utf8(s) { var text := Utf8IsText(s); }
    if text :| EncodeText(text) == s { TextIsUtf8(text); }
  }

  /** A control character: U+0000 to U+001F and U+007F to U+009F. */
  predicate Control(c: Scalar) { c < 0x20 || 0x7F <= c < 0xA0 }

  /** What `validate_name` asks of the characters of a name, one by one and in pairs. */
  ghost predicate GoodName(text: seq<Scalar>) {
    && text != []
    && (forall c | c in text :: c != '/' as int && c != '\\' as int && c != ':' as int && !Control(c))
    && (forall i | 0 <= i < |text| - 1 :: !(text[i] == text[i + 1] == '.' as int))
  }

  /** The three conditions on the bytes of a name that is not empty. */
  ghost predicate CleanBytes(s: Bytes) { s == [] || ValidName(s) }

  ghost predicate CleanText(text: seq<Scalar>) { text == [] || GoodName(text) }

  /** One more byte at the head. */
  lemma CleanHead(b: Byte, s: Bytes)
    ensures CleanBytes([b] + s) <==>
              && b !in {0x2F, 0x5C, 0x3A, 0x7F} && b >= 0x20 && CleanBytes(s)
              && (s != [] ==> !(b == 0x2E && s[0] == 0x2E) && !(b == 0xC2 && s[0] < 0xA0))
  {
    var all := [b] + s;
    assert all[1..] == s;
    assert forall i | 0 <= i < |s| :: all[i + 1] == s[i];
    if CleanBytes(all) && s != [] {
      assert forall i | 0 <= i < |s| :: s[i] == all[i + 1];
      assert all[0] == b && all[1] == s[0];
    }
    if CleanBytes(s) && s != [] && b !in {0x2F, 0x5C, 0x3A, 0x7F} && b >= 0x20
       && !(b == 0x2E && s[0] == 0x2E) && !(b == 0xC2 && s[0] < 0xA0) {
      forall i | 0 <= i < |all| ensures all[i] !in {0x2F, 0x5C, 0x3A, 0x7F} && all[i] >= 0x20 {
        if i > 0 { assert all[i] == s[i - 1]; }
      }
      forall i | 0 <= i < |all| - 1
        ensures !(all[i] == 0x2E && all[i + 1] == 0x2E) && !(all[i] == 0xC2 && all[i + 1] < 0xA0)
      {
        if i > 0 { assert all[i] == s[i - 1] && all[i + 1] == s[i]; }
      }
    }
  }

  /** One more character at the head. */
  lemma CleanCharacter(c: Scalar, rest: Bytes)
    requires rest != [] ==> rest[0] < 0x80 || rest[0] >= 0xC0
    ensures CleanBytes(Encode(c) + rest) <==>
              && c != '/' as int && c != '\\' as int && c != ':' as int && !Control(c) && CleanBytes(rest)
              && (c == '.' as int && rest != [] ==> rest[0] != 0x2E)
  {
    hide CleanBytes;
    var e := Encode(c);
    if |e| == 1 {
      CleanHead(e[0], rest);
    } else if |e| == 2 {
      assert e + rest == [e[0]] + ([e[1]] + rest);
      CleanHead(e[0], [e[1]] + rest);
      CleanHead(e[1], rest);
    } else if |e| == 3 {
      assert e + rest == [e[0]] + ([e[1]] + ([e[2]] + rest));
      CleanHead(e[0], [e[1]] + ([e[2]] + rest));
      CleanHead(e[1], [e[2]] + rest);
      CleanHead(e[2], rest);
    } else {
      assert e + rest == [e[0]] + ([e[1]] + ([e[2]] + ([e[3]] + rest)));
      CleanHead(e[0], [e[1]] + ([e[2]] + ([e[3]] + rest)));
      CleanHead(e[1], [e[2]] + ([e[3]] + rest));
      CleanHead(e[2], [e[3]] + rest);
      CleanHead(e[3], rest);
    }
  }

  /** One more character at the head of a text. */
  lemma CleanTextHead(c: Scalar, rest: seq<Scalar>)
    ensures CleanText([c] + rest) <==>
              && c != '/' as int && c != '\\' as int && c != ':' as int && !Control(c)
              && CleanText(rest) && (c == '.' as int && rest != [] ==> rest[0] != '.' as int)
  {
    hide Control;
    var text := [c] + rest;
    assert forall x :: x in text <==> x == c || x in rest;
    assert forall i | 0 <= i < |rest| :: rest[i] == text[i + 1];
    if CleanText(text) {
      assert c in text && text[0] == c && (rest != [] ==> text[0 + 1] == rest[0]);
      forall i | 0 <= i < |rest| - 1 ensures !(rest[i] == rest[i + 1] == '.' as int) {
        assert rest[i] == text[i + 1] && rest[i + 1] == text[i + 2];
      }
    }
    forall i | 0 <= i < |text| - 1 && CleanText(rest) && (c == '.' as int && rest != [] ==> rest[0] != '.' as int)
      ensures !(text[i] == text[i + 1] == '.' as int)
    {
      if i > 0 { assert text[i] == rest[i - 1] && text[i + 1] == rest[i]; }
    }
  }

  lemma HeadByte(text: seq<Scalar>)
    requires text != []
    ensures EncodeText(text) != [] && (EncodeText(text)[0] < 0x80 || EncodeText(text)[0] >= 0xC0)
    ensures EncodeText(text)[0] == 0x2E <==> text[0] == '.' as int
  {}

  lemma {:induction false} CleanIsClean(text: seq<Scalar>)
    ensures CleanBytes(EncodeText(text)) <==> CleanText(text)
  {
    hide CleanBytes, CleanText, Encode;
    if text == [] {
      NothingIsClean();
    } else {
      var rest := text[1..];
      CleanIsClean(rest);
      CleanTextHead(text[0], rest);
      assert text == [text[0]] + rest;
      if rest != [] { HeadByte(rest); } else { assert EncodeText(rest) == []; }
      CleanCharacter(text[0], EncodeText(rest));
    }
  }

  lemma NothingIsClean()
    ensures CleanBytes([]) && CleanText([])
  {}

  /** A name passes the byte-level check exactly when its text is a good name: not empty, without
      separator, colon, control character or two dots in a row. */
  lemma ValidIsGood(text: seq<Scalar>)
    ensures ValidName(EncodeText(text)) <==> GoodName(text)
  {
    CleanIsClean(text);
    if text != [] { HeadByte(text); }
  }
}
