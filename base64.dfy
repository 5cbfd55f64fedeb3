/**
 * Base64 as the document Lambda uses it: `base64.b64encode` (the alphabet and
 * padding of section 4 of RFC 4648) and the non-validating `base64.b64decode`,
 * which first requires the text to be ASCII and then runs CPython's
 * `binascii.a2b_base64` in non-strict mode: characters outside the alphabet are
 * skipped, a `=` only counts once at least two data characters of a quantum have
 * been seen, a complete pad sequence ends decoding, and a final quantum with one
 * data character or with missing padding is an error.
 */
module Base64 {
  import opened Wrappers

  type Byte = x: int | 0 <= x < 256
  type Sextet = x: int | 0 <= x < 64

  /** The character that encodes sextet `v` in the alphabet of RFC 4648 section 4. */
  function CharOf(v: Sextet): char {
    if v < 26 then ('A' as int + v) as char
    else if v < 52 then ('a' as int + (v - 26)) as char
    else if v < 62 then ('0' as int + (v - 52)) as char
    else if v == 62 then '+'
    else '/'
  }

  /** The sextet a character encodes, or `None` for a character outside the alphabet (`=` included). */
  function ValueOf(c: char): (r: Option<Sextet>)
    ensures r.Some? ==> CharOf(r.value) == c
  {
    if 'A' <= c <= 'Z' then Some(c as int - 'A' as int)
    else if 'a' <= c <= 'z' then Some(c as int - 'a' as int + 26)
    else if '0' <= c <= '9' then Some(c as int - '0' as int + 52)
    else if c == '+' then Some(62)
    else if c == '/' then Some(63)
    else None
  }

  lemma ValueOfCharOf(v: Sextet)
    ensures ValueOf(CharOf(v)) == Some(v)
  {
  }

  // ---------------------------------------------------------------------------
  // Encoding

  /** The four sextets of three bytes, most significant bits first. */
  function Sextet0(b0: Byte): Sextet { b0 / 4 }
  function Sextet1(b0: Byte, b1: Byte): Sextet { (b0 % 4) * 16 + b1 / 16 }
  function Sextet2(b1: Byte, b2: Byte): Sextet { (b1 % 16) * 4 + b2 / 64 }
  function Sextet3(b2: Byte): Sextet { b2 % 64 }

  /** Three bytes as four characters. */
  function EncodeTriple(b0: Byte, b1: Byte, b2: Byte): string {
    [CharOf(Sextet0(b0)), CharOf(Sextet1(b0, b1)), CharOf(Sextet2(b1, b2)), CharOf(Sextet3(b2))]
  }

  /** `base64.b64encode(data).decode()`: four characters per started group of three bytes, padded with `=`. */
  function Encode(data: seq<Byte>): (s: string)
    ensures |s| == 4 * ((|data| + 2) / 3)
    ensures InAlphabet(s)
    decreases |data|
  {
    if |data| == 0 then ""
    else if |data| == 1 then
      var v0, v1 := Sextet0(data[0]), Sextet1(data[0], 0);
      ValueOfCharOf(v0);
      ValueOfCharOf(v1);
      [CharOf(v0), CharOf(v1), '=', '=']
    else if |data| == 2 then
      var v0, v1, v2 := Sextet0(data[0]), Sextet1(data[0], data[1]), Sextet2(data[1], 0);
      ValueOfCharOf(v0);
      ValueOfCharOf(v1);
      ValueOfCharOf(v2);
      [CharOf(v0), CharOf(v1), CharOf(v2), '=']
    else
      var head := EncodeTriple(data[0], data[1], data[2]);
      var tail := Encode(data[3..]);
      EncodeTripleAlphabet(data[0], data[1], data[2]);
      AlphabetAppend(head, tail);
      assert (|data| + 2) / 3 == (|data[3..]| + 2) / 3 + 1;
      head + tail
  }

  /** Every character is a pad or in the alphabet. */
  predicate InAlphabet(s: string) {
    forall i :: 0 <= i < |s| ==> s[i] == '=' || ValueOf(s[i]).Some?
  }

  lemma AlphabetAppend(a: string, b: string)
    requires InAlphabet(a) && InAlphabet(b)
    ensures InAlphabet(a + b)
  {
    assert forall i :: 0 <= i < |a + b| ==> (a + b)[i] == (if i < |a| then a[i] else b[i - |a|]);
  }

  lemma EncodeTripleAlphabet(b0: Byte, b1: Byte, b2: Byte)
    ensures |EncodeTriple(b0, b1, b2)| == 4 && InAlphabet(EncodeTriple(b0, b1, b2))
  {
    ValueOfCharOf(Sextet0(b0));
    ValueOfCharOf(Sextet1(b0, b1));
    ValueOfCharOf(Sextet2(b1, b2));
    ValueOfCharOf(Sextet3(b2));
  }

  // ---------------------------------------------------------------------------
  // Decoding

  datatype DecodeError =
    | NonAscii            // str.encode('ascii') fails before decoding starts
    | ExcessDataCharacter // the last quantum holds a single data character
    | IncorrectPadding    // the last quantum holds two or three data characters and no complete padding

  predicate IsAscii(s: string) {
    forall i :: 0 <= i < |s| ==> s[i] as int < 128
  }

  /**
   * One step of the non-strict decoder per character. `quad` is the number of data
   * characters seen in the current quantum, `left` the bits of the last one not yet
   * written, `pads` the `=` seen since then. Bytes are written as soon as they are
   * complete; a pad sequence that completes the quantum ends decoding successfully.
   */
  function DecodeFrom(s: string, quad: nat, left: nat, pads: nat, out: seq<Byte>): Result<seq<Byte>, DecodeError>
    requires quad < 4
    requires quad == 1 ==> left < 64
    requires quad == 2 ==> left < 16
    requires quad == 3 ==> left < 4
    decreases |s|
  {
    if s == [] then
      if quad == 0 then Success(out)
      else if quad == 1 then Failure(ExcessDataCharacter)
      else Failure(IncorrectPadding)
    else if s[0] == '=' then
      if quad >= 2 && quad + pads + 1 >= 4 then Success(out)
      else DecodeFrom(s[1..], quad, left, if quad >= 2 then pads + 1 else pads, out)
    else
      match ValueOf(s[0])
      case None => DecodeFrom(s[1..], quad, left, pads, out)
      case Some(v) =>
        if quad == 0 then DecodeFrom(s[1..], 1, v, 0, out)
        else if quad == 1 then DecodeFrom(s[1..], 2, v % 16, 0, out + [left * 4 + v / 16])
        else if quad == 2 then DecodeFrom(s[1..], 3, v % 4, 0, out + [left * 16 + v / 4])
        else DecodeFrom(s[1..], 0, 0, 0, out + [left * 64 + v])
  }

  /** The decoder only appends, at most one byte per character, and never reports `NonAscii`. */
  lemma {:induction false} DecodeFromBounds(s: string, quad: nat, left: nat, pads: nat, out: seq<Byte>)
    requires quad < 4
    requires quad == 1 ==> left < 64
    requires quad == 2 ==> left < 16
    requires quad == 3 ==> left < 4
    ensures var r := DecodeFrom(s, quad, left, pads, out);
      && (r.Success? ==> out <= r.value && |r.value| <= |out| + |s|)
      && (r.Failure? ==> r.error != NonAscii)
    decreases |s|
  {
    if s != [] {
      if s[0] == '=' {
        if !(quad >= 2 && quad + pads + 1 >= 4) {
          DecodeFromBounds(s[1..], quad, left, if quad >= 2 then pads + 1 else pads, out);
        }
      } else {
        match ValueOf(s[0])
        case None => DecodeFromBounds(s[1..], quad, left, pads, out);
        case Some(v) =>
          if quad == 0 {
            DecodeFromBounds(s[1..], 1, v, 0, out);
          } else if quad == 1 {
            DecodeFromBounds(s[1..], 2, v % 16, 0, out + [left * 4 + v / 16]);
          } else if quad == 2 {
            DecodeFromBounds(s[1..], 3, v % 4, 0, out + [left * 16 + v / 4]);
          } else {
            DecodeFromBounds(s[1..], 0, 0, 0, out + [left * 64 + v]);
          }
      }
    }
  }

  /** `base64.b64decode(s)` with the default `validate=False`. */
  function Decode(s: string): (r: Result<seq<Byte>, DecodeError>)
    ensures r == Failure(NonAscii) <==> !IsAscii(s)
    ensures r.Success? ==> |r.value| <= |s|
  {
    if !IsAscii(s) then Failure(NonAscii)
    else
      DecodeFromBounds(s, 0, 0, 0, []);
      DecodeFrom(s, 0, 0, 0, [])
  }

  // ---------------------------------------------------------------------------
  // Round trip

  lemma EncodeIsAscii(data: seq<Byte>)
    ensures IsAscii(Encode(data))
  {
    var s := Encode(data);
    forall i | 0 <= i < |s| ensures s[i] as int < 128 {
      if s[i] != '=' {
        var v := ValueOf(s[i]).value;
        assert CharOf(v) == s[i];
      }
    }
  }

  /** A data character at the start of a quantum is remembered whole. */
  lemma StepFirst(v: Sextet, rest: string, pads: nat, out: seq<Byte>)
    ensures DecodeFrom([CharOf(v)] + rest, 0, 0, pads, out) == DecodeFrom(rest, 1, v, 0, out)
  {
    ValueOfCharOf(v);
    assert ([CharOf(v)] + rest)[1..] == rest;
  }

  /** The second data character of a quantum completes the first byte. */
  lemma StepSecond(v: Sextet, left: nat, rest: string, pads: nat, out: seq<Byte>)
    requires left < 64
    ensures DecodeFrom([CharOf(v)] + rest, 1, left, pads, out) == DecodeFrom(rest, 2, v % 16, 0, out + [left * 4 + v / 16])
  {
    ValueOfCharOf(v);
    assert ([CharOf(v)] + rest)[1..] == rest;
  }

  /** The third data character of a quantum completes the second byte. */
  lemma StepThird(v: Sextet, left: nat, rest: string, pads: nat, out: seq<Byte>)
    requires left < 16
    ensures DecodeFrom([CharOf(v)] + rest, 2, left, pads, out) == DecodeFrom(rest, 3, v % 4, 0, out + [left * 16 + v / 4])
  {
    ValueOfCharOf(v);
    assert ([CharOf(v)] + rest)[1..] == rest;
  }

  /** The fourth data character of a quantum completes the third byte and starts a new quantum. */
  lemma StepFourth(v: Sextet, left: nat, rest: string, pads: nat, out: seq<Byte>)
    requires left < 4
    ensures DecodeFrom([CharOf(v)] + rest, 3, left, pads, out) == DecodeFrom(rest, 0, 0, 0, out + [left * 64 + v])
  {
    ValueOfCharOf(v);
    assert ([CharOf(v)] + rest)[1..] == rest;
  }

  /** The sextets of the encoder put the bytes back together. */
  lemma Recombine(b0: Byte, b1: Byte, b2: Byte)
    ensures Sextet0(b0) * 4 + Sextet1(b0, b1) / 16 == b0
    ensures (Sextet1(b0, b1) % 16) * 16 + Sextet2(b1, b2) / 4 == b1
    ensures (Sextet2(b1, b2) % 4) * 64 + Sextet3(b2) == b2
  {
  }

  /** Four data characters make one quantum: three bytes are written. */
  lemma DecodeQuantum(v0: Sextet, v1: Sextet, v2: Sextet, v3: Sextet, rest: string, out: seq<Byte>)
    ensures DecodeFrom([CharOf(v0)] + ([CharOf(v1)] + ([CharOf(v2)] + ([CharOf(v3)] + rest))), 0, 0, 0, out)
         == DecodeFrom(rest, 0, 0, 0, out + [v0 * 4 + v1 / 16] + [(v1 % 16) * 16 + v2 / 4] + [(v2 % 4) * 64 + v3])
  {
    var t3 := [CharOf(v3)] + rest;
    var t2 := [CharOf(v2)] + t3;
    var t1 := [CharOf(v1)] + t2;
    StepFirst(v0, t1, 0, out);
    StepSecond(v1, v0, t2, 0, out);
    StepThird(v2, v1 % 16, t3, 0, out + [v0 * 4 + v1 / 16]);
    StepFourth(v3, v2 % 4, rest, 0, out + [v0 * 4 + v1 / 16] + [(v1 % 16) * 16 + v2 / 4]);
  }

  /** Decoding a full group writes its three bytes and leaves the decoder at the start of a quantum. */
  lemma DecodeTriple(b0: Byte, b1: Byte, b2: Byte, rest: string, out: seq<Byte>)
    ensures DecodeFrom(EncodeTriple(b0, b1, b2) + rest, 0, 0, 0, out)
         == DecodeFrom(rest, 0, 0, 0, out + [b0, b1, b2])
  {
    var s0: int, s1: int, s2: int, s3: int := Sextet0(b0), Sextet1(b0, b1), Sextet2(b1, b2), Sextet3(b2);
    assert EncodeTriple(b0, b1, b2) + rest == [CharOf(s0)] + ([CharOf(s1)] + ([CharOf(s2)] + ([CharOf(s3)] + rest)));
    DecodeQuantum(s0, s1, s2, s3, rest, out);
    Recombine(b0, b1, b2);
    assert out + [s0 * 4 + s1 / 16] + [(s1 % 16) * 16 + s2 / 4] + [(s2 % 4) * 64 + s3] == out + [b0, b1, b2];
  }

  /** Two data characters and a complete `==` end decoding after one byte. */
  lemma DecodeTwoPadded(v0: Sextet, v1: Sextet, out: seq<Byte>)
    ensures DecodeFrom([CharOf(v0)] + ([CharOf(v1)] + "=="), 0, 0, 0, out) == Success(out + [v0 * 4 + v1 / 16])
  {
    StepFirst(v0, [CharOf(v1)] + "==", 0, out);
    StepSecond(v1, v0, "==", 0, out);
    assert "=="[1..] == "=";
  }

  /** Three data characters and a complete `=` end decoding after two bytes. */
  lemma DecodeThreePadded(v0: Sextet, v1: Sextet, v2: Sextet, out: seq<Byte>)
    ensures DecodeFrom([CharOf(v0)] + ([CharOf(v1)] + ([CharOf(v2)] + "=")), 0, 0, 0, out)
         == Success(out + [v0 * 4 + v1 / 16] + [(v1 % 16) * 16 + v2 / 4])
  {
    StepFirst(v0, [CharOf(v1)] + ([CharOf(v2)] + "="), 0, out);
    StepSecond(v1, v0, [CharOf(v2)] + "=", 0, out);
    StepThird(v2, v1 % 16, "=", 0, out + [v0 * 4 + v1 / 16]);
  }

  /** A final group of one byte: two data characters and a complete `==`. */
  lemma DecodeLastOne(b0: Byte, out: seq<Byte>)
    ensures DecodeFrom(Encode([b0]), 0, 0, 0, out) == Success(out + [b0])
  {
    var s0, s1 := Sextet0(b0), Sextet1(b0, 0);
    assert Encode([b0]) == [CharOf(s0)] + ([CharOf(s1)] + "==");
    DecodeTwoPadded(s0, s1, out);
    Recombine(b0, 0, 0);
  }

  /** A final group of two bytes: three data characters and a complete `=`. */
  lemma DecodeLastTwo(b0: Byte, b1: Byte, out: seq<Byte>)
    ensures DecodeFrom(Encode([b0, b1]), 0, 0, 0, out) == Success(out + [b0, b1])
  {
    var s0: int, s1: int, s2: int := Sextet0(b0), Sextet1(b0, b1), Sextet2(b1, 0);
    assert Encode([b0, b1]) == [CharOf(s0)] + ([CharOf(s1)] + ([CharOf(s2)] + "="));
    DecodeThreePadded(s0, s1, s2, out);
    Recombine(b0, b1, 0);
    assert out + [s0 * 4 + s1 / 16] + [(s1 % 16) * 16 + s2 / 4] == out + [b0, b1];
  }

  /** An encoding of fewer than three bytes decodes to them. */
  lemma DecodeFinalGroup(data: seq<Byte>, out: seq<Byte>)
    requires |data| < 3
    ensures DecodeFrom(Encode(data), 0, 0, 0, out) == Success(out + data)
  {
    if |data| == 0 {
      assert out + data == out;
    } else if |data| == 1 {
      DecodeLastOne(data[0], out);
      assert [data[0]] == data;
    } else {
      DecodeLastTwo(data[0], data[1], out);
      assert [data[0], data[1]] == data;
    }
  }

  lemma {:induction false} DecodeFromEncode(data: seq<Byte>, out: seq<Byte>)
    ensures DecodeFrom(Encode(data), 0, 0, 0, out) == Success(out + data)
    decreases |data|
  {
    if |data| < 3 {
      DecodeFinalGroup(data, out);
    } else {
      assert Encode(data) == EncodeTriple(data[0], data[1], data[2]) + Encode(data[3..]);
      DecodeTriple(data[0], data[1], data[2], Encode(data[3..]), out);
      DecodeFromEncode(data[3..], out + [data[0], data[1], data[2]]);
      assert out + [data[0], data[1], data[2]] + data[3..] == out + data;
    }
  }

  /** What `b64encode` writes, `b64decode` reads back exactly. */
  lemma DecodeEncode(data: seq<Byte>)
    ensures Decode(Encode(data)) == Success(data)
  {
    EncodeIsAscii(data);
    DecodeFromEncode(data, []);
    assert [] + data == data;
  }

  /** Non-validating decoding skips an ASCII character outside the alphabet and other than `=`. */
  lemma DecodeSkipsForeign(c: char, s: string, quad: nat, left: nat, pads: nat, out: seq<Byte>)
    requires quad < 4
    requires quad == 1 ==> left < 64
    requires quad == 2 ==> left < 16
    requires quad == 3 ==> left < 4
    requires c != '=' && ValueOf(c).None?
    ensures DecodeFrom([c] + s, quad, left, pads, out) == DecodeFrom(s, quad, left, pads, out)
  {
    assert ([c] + s)[1..] == s;
  }

  /**
   * An ASCII character outside the alphabet and other than `=` can be inserted
   * anywhere in the text without changing what it decodes to, errors included.
   */
  lemma DecodeIgnoresForeign(a: string, c: char, b: string)
    requires c as int < 128 && c != '=' && ValueOf(c).None?
    ensures Decode(a + [c] + b) == Decode(a + b)
  {
    assert IsAscii(a + [c] + b) <==> IsAscii(a + b) by {
      if IsAscii(a + b) {
        forall i | 0 <= i < |a + [c] + b|
          ensures (a + [c] + b)[i] as int < 128
        {
          if i > |a| { assert (a + [c] + b)[i] == (a + b)[i - 1]; }
          else if i < |a| { assert (a + [c] + b)[i] == (a + b)[i]; }
        }
      }
      if IsAscii(a + [c] + b) {
        forall i | 0 <= i < |a + b|
          ensures (a + b)[i] as int < 128
        {
          if i >= |a| { assert (a + b)[i] == (a + [c] + b)[i + 1]; }
          else { assert (a + b)[i] == (a + [c] + b)[i]; }
        }
      }
    }
    ForeignAnywhere(a, c, b, 0, 0, 0, []);
  }

  lemma {:induction false} ForeignAnywhere(a: string, c: char, b: string, quad: nat, left: nat, pads: nat, out: seq<Byte>)
    requires quad < 4
    requires quad == 1 ==> left < 64
    requires quad == 2 ==> left < 16
    requires quad == 3 ==> left < 4
    requires c != '=' && ValueOf(c).None?
    ensures DecodeFrom(a + [c] + b, quad, left, pads, out) == DecodeFrom(a + b, quad, left, pads, out)
    decreases |a|
  {
    if a == [] {
      assert a + [c] + b == [c] + b && a + b == b;
      DecodeSkipsForeign(c, b, quad, left, pads, out);
    } else {
      assert (a + [c] + b)[0] == a[0] == (a + b)[0];
      assert (a + [c] + b)[1..] == a[1..] + [c] + b;
      assert (a + b)[1..] == a[1..] + b;
      if a[0] == '=' {
        if !(quad >= 2 && quad + pads + 1 >= 4) {
          ForeignAnywhere(a[1..], c, b, quad, left, if quad >= 2 then pads + 1 else pads, out);
        }
      } else {
        match ValueOf(a[0])
        case None => ForeignAnywhere(a[1..], c, b, quad, left, pads, out);
        case Some(v) =>
          if quad == 0 { ForeignAnywhere(a[1..], c, b, 1, v, 0, out); }
          else if quad == 1 { ForeignAnywhere(a[1..], c, b, 2, v % 16, 0, out + [left * 4 + v / 16]); }
          else if quad == 2 { ForeignAnywhere(a[1..], c, b, 3, v % 4, 0, out + [left * 16 + v / 4]); }
          else { ForeignAnywhere(a[1..], c, b, 0, 0, 0, out + [left * 64 + v]); }
      }
    }
  }

  /** The number of characters of `s` that are in the alphabet. */
  function DataCount(s: string): nat
    decreases |s|
  {
    if s == [] then 0 else (if ValueOf(s[0]).Some? then 1 else 0) + DataCount(s[1..])
  }

  /** Success, one data character too many, or missing padding, as 0, 1 and 2. */
  function Verdict(r: Result<seq<Byte>, DecodeError>): (k: nat)
    ensures k == 0 <==> r.Success?
    ensures k == 1 <==> r == Failure(ExcessDataCharacter)
  {
    if r.Success? then 0 else if r.error == ExcessDataCharacter then 1 else 2
  }

  /** The verdict the phase `q` of the last quantum calls for. */
  function PhaseVerdict(q: nat): nat {
    if q == 0 then 0 else if q == 1 then 1 else 2
  }

  lemma {:induction false} VerdictWithoutPadding(s: string, quad: nat, left: nat, pads: nat, out: seq<Byte>)
    requires quad < 4
    requires quad == 1 ==> left < 64
    requires quad == 2 ==> left < 16
    requires quad == 3 ==> left < 4
    requires '=' !in s
    ensures Verdict(DecodeFrom(s, quad, left, pads, out)) == PhaseVerdict((quad + DataCount(s)) % 4)
    decreases |s|, 1
  {
    if s != [] {
      if ValueOf(s[0]).None? {
        assert s == [s[0]] + s[1..];
        assert DataCount(s) == DataCount(s[1..]);
        assert DecodeFrom(s, quad, left, pads, out) == DecodeFrom(s[1..], quad, left, pads, out);
        VerdictWithoutPadding(s[1..], quad, left, pads, out);
      } else {
        VerdictAfterData(s, quad, left, pads, out);
      }
    }
  }

  /** The step of `VerdictWithoutPadding` for a data character: it moves the phase on by one. */
  lemma {:induction false} VerdictAfterData(s: string, quad: nat, left: nat, pads: nat, out: seq<Byte>)
    requires quad < 4
    requires quad == 1 ==> left < 64
    requires quad == 2 ==> left < 16
    requires quad == 3 ==> left < 4
    requires '=' !in s
    requires s != [] && ValueOf(s[0]).Some?
    ensures Verdict(DecodeFrom(s, quad, left, pads, out)) == PhaseVerdict((quad + DataCount(s)) % 4)
    decreases |s|, 0
  {
    assert s == [s[0]] + s[1..];
    var v := ValueOf(s[0]).value;
    var n := DataCount(s[1..]);
    assert DataCount(s) == n + 1;
    if quad == 0 {
      assert DecodeFrom(s, quad, left, pads, out) == DecodeFrom(s[1..], 1, v, 0, out);
      VerdictWithoutPadding(s[1..], 1, v, 0, out);
    } else if quad == 1 {
      assert DecodeFrom(s, quad, left, pads, out) == DecodeFrom(s[1..], 2, v % 16, 0, out + [left * 4 + v / 16]);
      VerdictWithoutPadding(s[1..], 2, v % 16, 0, out + [left * 4 + v / 16]);
    } else if quad == 2 {
      assert DecodeFrom(s, quad, left, pads, out) == DecodeFrom(s[1..], 3, v % 4, 0, out + [left * 16 + v / 4]);
      VerdictWithoutPadding(s[1..], 3, v % 4, 0, out + [left * 16 + v / 4]);
    } else {
      assert DecodeFrom(s, quad, left, pads, out) == DecodeFrom(s[1..], 0, 0, 0, out + [left * 64 + v]);
      assert (quad + DataCount(s)) % 4 == n % 4;
      VerdictWithoutPadding(s[1..], 0, 0, 0, out + [left * 64 + v]);
    }
  }

  /**
   * Without any `=`, decoding succeeds exactly when the data characters fill whole
   * quanta; one data character too many and two or three are the two errors.
   */
  lemma DecodeWithoutPadding(s: string, quad: nat, left: nat, pads: nat, out: seq<Byte>)
    requires quad < 4
    requires quad == 1 ==> left < 64
    requires quad == 2 ==> left < 16
    requires quad == 3 ==> left < 4
    requires '=' !in s
    ensures var q := (quad + DataCount(s)) % 4;
      && (DecodeFrom(s, quad, left, pads, out).Success? <==> q == 0)
      && (q == 1 ==> DecodeFrom(s, quad, left, pads, out) == Failure(ExcessDataCharacter))
      && (q >= 2 ==> DecodeFrom(s, quad, left, pads, out) == Failure(IncorrectPadding))
  {
    VerdictWithoutPadding(s, quad, left, pads, out);
  }

  /** An ASCII text without `=` whose data characters are one more than a multiple of four is rejected. */
  lemma RejectsExcessCharacter(s: string)
    requires IsAscii(s) && '=' !in s && DataCount(s) % 4 == 1
    ensures Decode(s) == Failure(ExcessDataCharacter)
  {
    DecodeWithoutPadding(s, 0, 0, 0, []);
  }

  /**
   * An ASCII text whose every character is skipped (no data character, no `=`)
   * decodes to no bytes: a non-empty `file_content` can still mean an empty document.
   */
  lemma {:induction false} SkippedOnlyDecodesToEmpty(s: string)
    requires IsAscii(s)
    requires forall i :: 0 <= i < |s| ==> s[i] != '=' && ValueOf(s[i]).None?
    ensures Decode(s) == Success([])
  {
    SkippedOnly(s);
  }

  lemma {:induction false} SkippedOnly(s: string)
    requires forall i :: 0 <= i < |s| ==> s[i] != '=' && ValueOf(s[i]).None?
    ensures DecodeFrom(s, 0, 0, 0, []) == Success([])
    decreases |s|
  {
    if s != [] {
      assert forall i :: 0 <= i < |s[1..]| ==> s[1..][i] == s[i + 1];
      SkippedOnly(s[1..]);
    }
  }
}
