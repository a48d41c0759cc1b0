/**
 * sumo-proxy-printer.py: the observer that receives the mirror copies, reads
 * the direction tag and renders the payload as `\xNN` escapes.
 */
module Printer {
  import opened Wire

  /** Where the printer's UDP server listens. */
  const ListenAddress := Endpoint("127.0.0.1", 65432)

  /** `repr_bytes`'s default `maximum`. */
  const DefaultMaximum := 25

  function Min(a: int, b: int): int { if a <= b then a else b }
  function Max(a: int, b: int): int { if a >= b then a else b }

  /** Python's `s[:k]`: a negative `k` counts from the end, and the bound is
      clipped to the sequence. */
  function Prefix(s: Bytes, k: int): (p: Bytes)
    ensures |p| == if k >= 0 then Min(k, |s|) else Max(0, |s| + k)
    ensures p == s[..|p|]
  {
    if k >= 0 then s[..Min(k, |s|)] else s[..Max(0, |s| + k)]
  }

  /** One lowercase hexadecimal digit, as `'{:x}'` writes it. */
  function HexDigit(n: int): (c: char)
    requires 0 <= n < 16
    ensures '0' <= c <= '9' || 'a' <= c <= 'f'
  {
    if n < 10 then ('0' as int + n) as char else ('a' as int + n - 10) as char
  }

  /** The value of a lowercase hexadecimal digit, None for any other character. */
  function HexValue(c: char): (v: Option<int>)
    ensures v.Some? ==> 0 <= v.value < 16 && HexDigit(v.value) == c
    ensures v.Some? <==> '0' <= c <= '9' || 'a' <= c <= 'f'
  {
    if '0' <= c <= '9' then Some(c as int - '0' as int)
    else if 'a' <= c <= 'f' then Some(c as int - 'a' as int + 10)
    else None
  }

  /** `'\\x{:02x}'.format(ord(c))`. */
  function ByteRepr(b: Byte): (s: string)
    ensures |s| == 4 && s[0] == '\\' && s[1] == 'x'
    ensures HexValue(s[2]) == Some(b / 16) && HexValue(s[3]) == Some(b % 16)
  {
    ['\\', 'x', HexDigit(b / 16), HexDigit(b % 16)]
  }

  /** `''.join(...)` over the rendered bytes, in input order. */
  function Render(bytes: Bytes): string {
    if bytes == [] then "" else ByteRepr(bytes[0]) + Render(bytes[1..])
  }

  /** `repr_bytes(bytes, maximum)`. */
  function ReprBytes(bytes: Bytes, maximum: int): string {
    Render(Prefix(bytes, maximum))
  }

  /** Reading `\xNN` groups back; None for text `Render` never produces. */
  function ParseRepr(s: string): (r: Option<Bytes>)
    decreases |s|
  {
    if s == [] then Some([])
    else if |s| < 4 || s[0] != '\\' || s[1] != 'x' then None
    else match (HexValue(s[2]), HexValue(s[3]), ParseRepr(s[4..]))
      case (Some(hi), Some(lo), Some(rest)) => Some([hi * 16 + lo] + rest)
      case _ => None
  }

  /** Four characters per byte. */
  lemma {:induction false} RenderLength(bytes: Bytes)
    ensures |Render(bytes)| == 4 * |bytes|
  {
    if bytes != [] {
      RenderLength(bytes[1..]);
    }
  }

  /** The `i`-th group of four characters renders the `i`-th byte. */
  lemma {:induction false} RenderAt(bytes: Bytes, i: nat)
    requires i < |bytes|
    ensures |Render(bytes)| == 4 * |bytes|
    ensures Render(bytes)[4 * i..4 * i + 4] == ByteRepr(bytes[i])
  {
    RenderLength(bytes);
    if i > 0 {
      RenderAt(bytes[1..], i - 1);
      assert Render(bytes) == ByteRepr(bytes[0]) + Render(bytes[1..]);
      assert Render(bytes)[4 * i..4 * i + 4] == Render(bytes[1..])[4 * (i - 1)..4 * (i - 1) + 4];
    }
  }

  /** The output is `4 * min(len(bytes), maximum)` characters long for a
      non-negative `maximum`, and empty for empty input. */
  lemma ReprLength(bytes: Bytes, maximum: int)
    ensures |ReprBytes(bytes, maximum)| == 4 * |Prefix(bytes, maximum)|
    ensures maximum >= 0 ==> |ReprBytes(bytes, maximum)| == 4 * Min(|bytes|, maximum)
    ensures bytes == [] ==> ReprBytes(bytes, maximum) == ""
  {
    RenderLength(Prefix(bytes, maximum));
  }

  /** The output depends only on `bytes[:maximum]`. */
  lemma ReprTruncation(bytes: Bytes, maximum: int)
    requires maximum >= 0
    ensures ReprBytes(bytes, maximum) == ReprBytes(Prefix(bytes, maximum), maximum)
    ensures |bytes| <= maximum ==> ReprBytes(bytes, maximum) == Render(bytes)
  {
    var p := Prefix(bytes, maximum);
    assert Prefix(p, maximum) == p[..|p|] == p;
    if |bytes| <= maximum {
      assert p == bytes[..|bytes|] == bytes;
    }
  }

  /** Rendering loses nothing: the bytes can be read back from the text. */
  lemma {:induction false} ParseRender(bytes: Bytes)
    ensures ParseRepr(Render(bytes)) == Some(bytes)
  {
    if bytes != [] {
      var b := bytes[0];
      ParseRender(bytes[1..]);
      var s := Render(bytes);
      assert s == ByteRepr(b) + Render(bytes[1..]);
      assert s[0] == '\\' && s[1] == 'x' && |s| >= 4;
      assert HexValue(s[2]) == Some(b / 16) && HexValue(s[3]) == Some(b % 16);
      assert s[4..] == Render(bytes[1..]);
      assert b / 16 * 16 + b % 16 == b;
      assert bytes == [b] + bytes[1..];
    }
  }

  /** A byte's two hexadecimal digits give back its high and low nibble. */
  lemma HexByte(hi: int, lo: int)
    requires 0 <= hi < 16 && 0 <= lo < 16
    ensures 0 <= hi * 16 + lo < 256
    ensures (hi * 16 + lo) / 16 == hi && (hi * 16 + lo) % 16 == lo
  {
  }

  /** Rendering is canonical: any text that reads back as `bytes` is the
      rendering of `bytes`. */
  lemma {:induction false} RenderParse(s: string, bytes: Bytes)
    requires ParseRepr(s) == Some(bytes)
    ensures Render(bytes) == s
    decreases |s|
  {
    if s != [] {
      assert |s| >= 4 && s[0] == '\\' && s[1] == 'x';
      var hi, lo := HexValue(s[2]).value, HexValue(s[3]).value;
      var rest := ParseRepr(s[4..]).value;
      assert bytes == [hi * 16 + lo] + rest;
      RenderParse(s[4..], rest);
      HexByte(hi, lo);
      assert Render(bytes) == ByteRepr(hi * 16 + lo) + Render(rest);
      assert ByteRepr(hi * 16 + lo) == s[..4];
      assert s == s[..4] + s[4..];
    }
  }

  /** The tag test of `Handler.handle`: '>' is client-to-sumo, '<' is
      sumo-to-client, the payload is `data[1:]`; any other first byte is ignored,
      and an empty datagram makes `data[0]` raise. */
  function Untag(data: Bytes): (r: Result<Option<(Direction, Bytes)>>)
    ensures r.Err? <==> data == []
    ensures r.Err? ==> r.error == EmptyDatagram
    ensures r.Ok? ==> (r.value.Some? <==> data[0] == ClientToSumoTag || data[0] == SumoToClientTag)
    ensures r.Ok? && r.value.Some? ==> TagOf(r.value.value.0) == data[0] && r.value.value.1 == data[1..]
  {
    if data == [] then Err(EmptyDatagram)
    else if data[0] == ClientToSumoTag then Ok(Some((ClientToSumo, data[1..])))
    else if data[0] == SumoToClientTag then Ok(Some((SumoToClient, data[1..])))
    else Ok(None)
  }

  /** The line `Handler.handle` prints for a datagram, if any. */
  function Line(data: Bytes): (r: Result<Option<string>>)
    ensures r.Err? <==> data == []
    ensures r.Ok? ==> (r.value.Some? <==> Untag(data).value.Some?)
  {
    match Untag(data)
    case Err(e) => Err(e)
    case Ok(None) => Ok(None)
    case Ok(Some((dir, payload))) =>
      var mark := if dir == ClientToSumo then '>' else '<';
      Ok(Some([mark, ' '] + ReprBytes(payload, DefaultMaximum)))
  }

  /** Untagging inverts tagging, in both directions. */
  lemma UntagMirror(dir: Direction, data: Bytes)
    ensures Untag(Mirror(dir, data)) == Ok(Some((dir, data)))
  {
  }

  lemma UntagOnlyMirrors(tagged: Bytes, dir: Direction, data: Bytes)
    requires Untag(tagged) == Ok(Some((dir, data)))
    ensures tagged == Mirror(dir, data)
  {
    assert tagged == [tagged[0]] + tagged[1..];
  }

  /** The printed line for a mirror copy names its direction and shows the
      first 25 bytes of the datagram, which can be read back from it. */
  lemma {:induction false} LineOfMirror(dir: Direction, data: Bytes)
    ensures var line := Line(Mirror(dir, data));
            && line.Ok? && line.value.Some?
            && |line.value.value| == 2 + 4 * Min(|data|, DefaultMaximum)
            && line.value.value[0] == (if dir == ClientToSumo then '>' else '<')
            && line.value.value[1] == ' '
            && ParseRepr(line.value.value[2..]) == Some(Prefix(data, DefaultMaximum))
  {
    UntagMirror(dir, data);
    ReprLength(data, DefaultMaximum);
    ParseRender(Prefix(data, DefaultMaximum));
    var line := Line(Mirror(dir, data)).value.value;
    assert line[2..] == ReprBytes(data, DefaultMaximum);
  }
}
