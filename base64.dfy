/**
 * Standard base64 with `=` padding (section 4 of RFC 4648), as Python's
 * `base64.b64encode` produces it; the decoder reads back exactly the
 * canonical alphabet with padding.
 */
module Base64 {
  import opened Common

  /** The character for a 6-bit value. */
  function CharOf(i: nat): (c: char)
    requires i < 64
  {
    if i < 26 then ('A' as int + i) as char
    else if i < 52 then ('a' as int + (i - 26)) as char
    else if i < 62 then ('0' as int + (i - 52)) as char
    else if i == 62 then '+'
    else '/'
  }

  /** The 6-bit value of an alphabet character, None for any other character. */
  function ValueOf(c: char): (r: Option<nat>)
    ensures r.Some? ==> r.value < 64 && CharOf(r.value) == c
  {
    if 'A' <= c <= 'Z' then Some(c as int - 'A' as int)
    else if 'a' <= c <= 'z' then Some(c as int - 'a' as int + 26)
    else if '0' <= c <= '9' then Some(c as int - '0' as int + 52)
    else if c == '+' then Some(62)
    else if c == '/' then Some(63)
    else None
  }

  lemma ValueOfCharOf(i: nat)
    requires i < 64
    ensures ValueOf(CharOf(i)) == Some(i)
  {
  }

  /** The four 6-bit values of three bytes. */
  function Sextets(a: byte, b: byte, c: byte): (r: seq<nat>)
    ensures |r| == 4 && forall k :: 0 <= k < 4 ==> r[k] < 64
  {
    [a as int / 4, a as int % 4 * 16 + b as int / 16, b as int % 16 * 4 + c as int / 64, c as int % 64]
  }

  /** Three bytes as four characters. */
  function EncodeGroup(a: byte, b: byte, c: byte): (s: string)
    ensures |s| == 4
  {
    var v := Sextets(a, b, c);
    [CharOf(v[0]), CharOf(v[1]), CharOf(v[2]), CharOf(v[3])]
  }

  /** `b64encode(bs).decode()`. */
  function Encode(bs: seq<byte>): (s: string)
    ensures |s| == (|bs| + 2) / 3 * 4
  {
    if |bs| >= 3 then EncodeGroup(bs[0], bs[1], bs[2]) + Encode(bs[3..])
    else if |bs| == 2 then EncodeGroup(bs[0], bs[1], 0)[..3] + "="
    else if |bs| == 1 then EncodeGroup(bs[0], 0, 0)[..2] + "=="
    else ""
  }

  /** The three bytes packed in four 6-bit values. */
  function GroupBytes(v0: nat, v1: nat, v2: nat, v3: nat): seq<byte>
    requires v0 < 64 && v1 < 64 && v2 < 64 && v3 < 64
  {
    [(v0 * 4 + v1 / 16) as byte, (v1 % 16 * 16 + v2 / 4) as byte, (v2 % 4 * 64 + v3) as byte]
  }

  /** The number of `=` at the end of a final group. */
  function PaddingOf(s: string): nat
    requires |s| == 4
  {
    if s[2] == '=' && s[3] == '=' then 2 else if s[3] == '=' then 1 else 0
  }

  /** The bytes of four characters of which the last `padding` are `=`, None if another is not in the alphabet. */
  function DecodeGroup(s: string, padding: nat): (r: Option<seq<byte>>)
    requires |s| == 4 && padding <= 2
    ensures r.Some? ==> |r.value| == 3 - padding
  {
    var v0 := ValueOf(s[0]);
    var v1 := ValueOf(s[1]);
    var v2 := if padding == 2 then Some(0) else ValueOf(s[2]);
    var v3 := if padding >= 1 then Some(0) else ValueOf(s[3]);
    if v0.None? || v1.None? || v2.None? || v3.None? then None
    else Some(GroupBytes(v0.value, v1.value, v2.value, v3.value)[..3 - padding])
  }

  /** The bytes of a base64 text, None when it is not canonical base64. */
  function Decode(s: string): (r: Option<seq<byte>>)
    decreases |s|
  {
    if s == [] then Some([])
    else if |s| < 4 then None
    else
      var last := |s| == 4;
      var padding := if last then PaddingOf(s[..4]) else 0;
      match DecodeGroup(s[..4], padding)
      case None => None
      case Some(group) =>
        if last then Some(group)
        else match Decode(s[4..])
          case None => None
          case Some(rest) => Some(group + rest)
  }

  lemma SextetsRoundTrip(a: byte, b: byte, c: byte)
    ensures var v := Sextets(a, b, c); GroupBytes(v[0], v[1], v[2], v[3]) == [a, b, c]
  {
    var x, y, z := a as int, b as int, c as int;
    assert (x % 4 * 16 + y / 16) / 16 == x % 4;
    assert (x % 4 * 16 + y / 16) % 16 == y / 16;
    assert (y % 16 * 4 + z / 64) / 4 == y % 16;
    assert (y % 16 * 4 + z / 64) % 4 == z / 64;
  }

  lemma GroupRoundTrip(a: byte, b: byte, c: byte)
    ensures DecodeGroup(EncodeGroup(a, b, c), 0) == Some([a, b, c])
  {
    var v := Sextets(a, b, c);
    var s := EncodeGroup(a, b, c);
    ValueOfCharOf(v[0]);
    ValueOfCharOf(v[1]);
    ValueOfCharOf(v[2]);
    ValueOfCharOf(v[3]);
    assert ValueOf(s[0]) == Some(v[0]) && ValueOf(s[1]) == Some(v[1]);
    assert ValueOf(s[2]) == Some(v[2]) && ValueOf(s[3]) == Some(v[3]);
    SextetsRoundTrip(a, b, c);
    assert GroupBytes(v[0], v[1], v[2], v[3])[..3] == [a, b, c];
  }

  lemma PaddedRoundTrip2(a: byte, b: byte)
    ensures var s := EncodeGroup(a, b, 0)[..3] + "=";
            |s| == 4 && PaddingOf(s) == 1 && DecodeGroup(s, 1) == Some([a, b])
  {
    var s := EncodeGroup(a, b, 0)[..3] + "=";
    var v := Sextets(a, b, 0);
    ValueOfCharOf(v[0]);
    ValueOfCharOf(v[1]);
    ValueOfCharOf(v[2]);
    assert s == [CharOf(v[0]), CharOf(v[1]), CharOf(v[2]), '='];
    assert ValueOf(s[0]) == Some(v[0]) && ValueOf(s[1]) == Some(v[1]) && ValueOf(s[2]) == Some(v[2]);
    assert PaddingOf(s) == 1;
    assert v[3] == 0;
    SextetsRoundTrip(a, b, 0);
    assert GroupBytes(v[0], v[1], v[2], 0)[..2] == [a, b];
  }

  lemma PaddedRoundTrip1(a: byte)
    ensures var s := EncodeGroup(a, 0, 0)[..2] + "==";
            |s| == 4 && PaddingOf(s) == 2 && DecodeGroup(s, 2) == Some([a])
  {
    var s := EncodeGroup(a, 0, 0)[..2] + "==";
    var v := Sextets(a, 0, 0);
    ValueOfCharOf(v[0]);
    ValueOfCharOf(v[1]);
    assert s == [CharOf(v[0]), CharOf(v[1]), '=', '='];
    assert ValueOf(s[0]) == Some(v[0]) && ValueOf(s[1]) == Some(v[1]);
    assert PaddingOf(s) == 2;
    assert v[2] == 0 && v[3] == 0;
    SextetsRoundTrip(a, 0, 0);
    assert GroupBytes(v[0], v[1], 0, 0)[..1] == [a];
  }

  /** Lemma: decoding an encoding gives back the bytes. */
  lemma {:induction false} RoundTrip(bs: seq<byte>)
    ensures Decode(Encode(bs)) == Some(bs)
    decreases |bs|
  {
    var s := Encode(bs);
    if |bs| >= 3 {
      var g := EncodeGroup(bs[0], bs[1], bs[2]);
      GroupRoundTrip(bs[0], bs[1], bs[2]);
      assert g[2] != '=' && g[3] != '=';
      assert s[..4] == g;
      assert s[4..] == Encode(bs[3..]);
      if |bs| > 3 {
        assert PaddingOf(g) == 0;
        RoundTrip(bs[3..]);
        assert bs == [bs[0], bs[1], bs[2]] + bs[3..];
      } else {
        assert bs == [bs[0], bs[1], bs[2]];
        assert PaddingOf(g) == 0;
      }
    } else if |bs| == 2 {
      PaddedRoundTrip2(bs[0], bs[1]);
      assert s[..4] == s;
      assert bs == [bs[0], bs[1]];
    } else if |bs| == 1 {
      PaddedRoundTrip1(bs[0]);
      assert s[..4] == s;
      assert bs == [bs[0]];
    }
  }
}
