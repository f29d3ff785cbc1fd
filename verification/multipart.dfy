/** The `multipart/form-data` upload request the recorders send after a
    recording stops: UTF-8 text, the form body (one `video` part framed by the
    delimiter and close-delimiter of section 5.1.1 of RFC 2046, as RFC 7578
    uses them) and its headers. */
module Multipart {
  import opened Wrappers
  import opened Text

  newtype byte = x: int | 0 <= x < 256

  // ---------------------------------------------------------------------------
  // UTF-8 (`str.encode("utf-8")`)
  // ---------------------------------------------------------------------------

  /** The UTF-8 bytes of one Unicode scalar value. */
  function EncodeChar(c: char): (r: seq<byte>)
    ensures 1 <= |r| <= 4
    ensures |r| == 1 <==> c as int < 0x80
    ensures c as int < 0x80 ==> r[0] as int == c as int
  {
    var n := c as int;
    if n < 0x80 then [n as byte]
    else if n < 0x800 then [(0xC0 + n / 64) as byte, (0x80 + n % 64) as byte]
    else if n < 0x10000 then
      [(0xE0 + n / 4096) as byte, (0x80 + n / 64 % 64) as byte, (0x80 + n % 64) as byte]
    else
      [(0xF0 + n / 262144) as byte, (0x80 + n / 4096 % 64) as byte,
       (0x80 + n / 64 % 64) as byte, (0x80 + n % 64) as byte]
  }

  function Utf8(s: string): seq<byte> {
    ConcatMap(s, EncodeChar)
  }

  /** Number of bytes announced by a lead byte; 0 for a continuation byte or
      a byte that never occurs in UTF-8. */
  function LeadLength(b: byte): nat {
    if b < 0x80 then 1
    else if b < 0xC0 then 0
    else if b < 0xE0 then 2
    else if b < 0xF0 then 3
    else if b < 0xF8 then 4
    else 0
  }

  /** The scalar value carried by the bytes of one encoded character. */
  function DecodeScalar(bs: seq<byte>): int
    requires 1 <= |bs| <= 4
  {
    if |bs| == 1 then bs[0] as int
    else if |bs| == 2 then (bs[0] as int - 0xC0) * 64 + (bs[1] as int - 0x80)
    else if |bs| == 3 then
      (bs[0] as int - 0xE0) * 4096 + (bs[1] as int - 0x80) * 64 + (bs[2] as int - 0x80)
    else
      (bs[0] as int - 0xF0) * 262144 + (bs[1] as int - 0x80) * 4096
      + (bs[2] as int - 0x80) * 64 + (bs[3] as int - 0x80)
  }

  predicate IsScalar(n: int) {
    0 <= n < 0xD800 || 0xE000 <= n < 0x110000
  }

  /** UTF-8 decoding; `None` on a malformed sequence. */
  function Decode(bs: seq<byte>): Option<string>
    decreases |bs|
  {
    if bs == [] then Some([])
    else
      var k := LeadLength(bs[0]);
      if k == 0 || k > |bs| then None
      else
        var n := DecodeScalar(bs[..k]);
        if !IsScalar(n) then None
        else match Decode(bs[k..])
          case None => None
          case Some(rest) => Some([n as char] + rest)
  }

  lemma TwoByteSplit(n: int)
    requires 0x80 <= n < 0x800
    ensures 2 <= n / 64 < 32 && n / 64 * 64 + n % 64 == n
  {
  }

  lemma ThreeByteSplit(n: int)
    requires 0x800 <= n < 0x10000
    ensures 0 <= n / 4096 < 16
    ensures n / 4096 * 4096 + n / 64 % 64 * 64 + n % 64 == n
  {
    assert n / 64 == n / 4096 * 64 + n / 64 % 64;
  }

  lemma FourByteSplit(n: int)
    requires 0x10000 <= n < 0x110000
    ensures 0 <= n / 262144 < 5
    ensures n / 262144 * 262144 + n / 4096 % 64 * 4096 + n / 64 % 64 * 64 + n % 64 == n
  {
    assert n / 4096 == n / 262144 * 64 + n / 4096 % 64;
    assert n / 64 == n / 4096 * 64 + n / 64 % 64;
  }

  /** The lead byte of an encoded character announces its length, and the
      bytes carry the character back. */
  lemma EncodeCharDecodes(c: char)
    ensures LeadLength(EncodeChar(c)[0]) == |EncodeChar(c)|
    ensures DecodeScalar(EncodeChar(c)) == c as int
  {
    var n := c as int;
    var e := EncodeChar(c);
    if n < 0x80 {
    } else if n < 0x800 {
      TwoByteSplit(n);
      assert e[0] as int == 0xC0 + n / 64 && e[1] as int == 0x80 + n % 64;
    } else if n < 0x10000 {
      ThreeByteSplit(n);
      assert e[0] as int == 0xE0 + n / 4096;
      assert e[1] as int == 0x80 + n / 64 % 64 && e[2] as int == 0x80 + n % 64;
    } else {
      FourByteSplit(n);
      assert e[0] as int == 0xF0 + n / 262144;
      assert e[1] as int == 0x80 + n / 4096 % 64;
      assert e[2] as int == 0x80 + n / 64 % 64 && e[3] as int == 0x80 + n % 64;
    }
  }

  lemma DecodeCons(c: char, rest: seq<byte>)
    ensures Decode(EncodeChar(c) + rest) ==
      match Decode(rest) case None => None case Some(t) => Some([c] + t)
  {
    var e := EncodeChar(c);
    var bs := e + rest;
    EncodeCharDecodes(c);
    assert bs[0] == e[0];
    assert bs[..|e|] == e;
    assert bs[|e|..] == rest;
  }

  lemma Utf8Cons(s: string)
    requires s != []
    ensures Utf8(s) == EncodeChar(s[0]) + Utf8(s[1..])
  {
    assert s == [s[0]] + s[1..];
    ConcatMapAppend([s[0]], s[1..], EncodeChar);
    assert ConcatMap([s[0]], EncodeChar) == EncodeChar(s[0]) by {
      assert [s[0]][..0] == [];
    }
  }

  /** Decoding the UTF-8 bytes of a string gives the string back. */
  lemma {:induction false} Utf8RoundTrip(s: string)
    ensures Decode(Utf8(s)) == Some(s)
    decreases |s|
  {
    if s == [] {
    } else {
      Utf8Cons(s);
      Utf8RoundTrip(s[1..]);
      DecodeCons(s[0], Utf8(s[1..]));
      assert [s[0]] + s[1..] == s;
    }
  }

  lemma Utf8Append(a: string, b: string)
    ensures Utf8(a + b) == Utf8(a) + Utf8(b)
  {
    ConcatMapAppend(a, b, EncodeChar);
  }

  predicate IsAscii(s: string) {
    forall i :: 0 <= i < |s| ==> s[i] as int < 0x80
  }

  /** ASCII text encodes byte for byte. */
  lemma {:induction false} Utf8Ascii(s: string)
    requires IsAscii(s)
    ensures |Utf8(s)| == |s|
    ensures forall i :: 0 <= i < |s| ==> Utf8(s)[i] as int == s[i] as int
    decreases |s|
  {
    if s != [] {
      var init := s[..|s| - 1];
      assert IsAscii(init) by {
        forall i | 0 <= i < |init| ensures init[i] as int < 0x80 {
          assert init[i] == s[i];
        }
      }
      Utf8Ascii(init);
      assert Utf8(s) == Utf8(init) + EncodeChar(s[|s| - 1]);
      forall i | 0 <= i < |s| ensures Utf8(s)[i] as int == s[i] as int {
        if i < |init| {
          assert Utf8(s)[i] == Utf8(init)[i];
          assert init[i] == s[i];
        }
      }
    }
  }

  // ---------------------------------------------------------------------------
  // Boundary and file name
  // ---------------------------------------------------------------------------

  const CRLF := "\r\n"
  const BoundaryStem := "----WebKitFormBoundary"

  predicate IsHexDigit(c: char) {
    '0' <= c <= '9' || 'a' <= c <= 'f'
  }

  /** What `uuid4().hex` yields: 32 lower-case hexadecimal digits. */
  predicate IsUuidHex(hex: string) {
    |hex| == 32 && forall i :: 0 <= i < |hex| ==> IsHexDigit(hex[i])
  }

  function Boundary(hex: string): string {
    BoundaryStem + hex
  }

  /** A character allowed in a boundary by section 5.1.1 of RFC 2046 (`bchars`). */
  predicate IsBoundaryChar(c: char) {
    '0' <= c <= '9' || 'a' <= c <= 'z' || 'A' <= c <= 'Z' ||
    c in "'()+_,-./:=? "
  }

  /** A boundary per section 5.1.1 of RFC 2046: 1 to 70 `bchars`, not ending in
      a space. */
  predicate ValidBoundary(b: string) {
    1 <= |b| <= 70 &&
    (forall i :: 0 <= i < |b| ==> IsBoundaryChar(b[i])) &&
    b[|b| - 1] != ' '
  }

  /** Every boundary built from a UUID is a valid ASCII boundary. */
  lemma BoundaryValid(hex: string)
    requires IsUuidHex(hex)
    ensures ValidBoundary(Boundary(hex)) && IsAscii(Boundary(hex))
  {
    var b := Boundary(hex);
    forall i | 0 <= i < |b| ensures IsBoundaryChar(b[i]) && b[i] as int < 0x80 {
      if i >= |BoundaryStem| {
        assert b[i] == hex[i - |BoundaryStem|];
      }
    }
  }

  /** The index of the last `/` of a path, -1 when there is none. */
  function LastSlash(path: string): (k: int)
    ensures -1 <= k < |path|
    ensures k >= 0 ==> path[k] == '/'
    ensures forall i :: k < i < |path| ==> path[i] != '/'
  {
    if path == [] then -1
    else if path[|path| - 1] == '/' then |path| - 1
    else LastSlash(path[..|path| - 1])
  }

  /** `os.path.basename`: the text after the last `/`. */
  function Basename(path: string): (r: string)
    ensures '/' !in r && EndsWith(path, r)
    ensures r == path || path[|path| - |r| - 1] == '/'
  {
    var k := LastSlash(path);
    path[k + 1..]
  }

  /** A name without a slash is its own base name. */
  lemma BasenameOfName(name: string)
    requires '/' !in name
    ensures Basename(name) == name
  {
  }

  /** A path ending in `/` followed by a slash-free name has that name as its
      base name. */
  lemma BasenameOfJoin(dir: string, name: string)
    requires '/' !in name
    ensures Basename(dir + "/" + name) == name
  {
    var p := dir + "/" + name;
    var k := LastSlash(p);
    assert p[|dir|] == '/';
    assert forall i :: |dir| < i < |p| ==> p[i] == name[i - |dir| - 1];
    assert p[|dir| + 1..] == name;
  }

  // ---------------------------------------------------------------------------
  // Body and request
  // ---------------------------------------------------------------------------

  /** `--boundary CRLF`: the opening delimiter line. */
  function Delimiter(boundary: string): string {
    "--" + boundary + CRLF
  }

  /** `CRLF --boundary-- CRLF`: the close-delimiter and the line end after it. */
  function CloseDelimiter(boundary: string): string {
    CRLF + "--" + boundary + "--" + CRLF
  }

  function PartHeaders(filename: string): string {
    "Content-Disposition: form-data; name=\"video\"; filename=\"" + filename + "\"" + CRLF
    + "Content-Type: video/mp4" + CRLF + CRLF
  }

  /** The body: the encoded delimiter and part headers, the file bytes, the
      encoded close-delimiter. */
  function Body(boundary: string, filename: string, file: seq<byte>): seq<byte> {
    Utf8(Delimiter(boundary) + PartHeaders(filename)) + file + Utf8(CloseDelimiter(boundary))
  }

  /** Reads the file bytes back out of a body framed with `boundary` and
      `filename`; `None` when the framing is not there. */
  function ExtractFile(body: seq<byte>, boundary: string, filename: string): Option<seq<byte>> {
    var prefix := Utf8(Delimiter(boundary) + PartHeaders(filename));
    var suffix := Utf8(CloseDelimiter(boundary));
    if |prefix| + |suffix| <= |body| && StartsWith(body, prefix) && EndsWith(body, suffix)
    then Some(body[|prefix|..|body| - |suffix|])
    else None
  }

  /** The body opens with the delimiter, closes with the close-delimiter, and
      carries exactly the file bytes in between. */
  lemma BodyFraming(boundary: string, filename: string, file: seq<byte>)
    ensures StartsWith(Body(boundary, filename, file), Utf8(Delimiter(boundary)))
    ensures EndsWith(Body(boundary, filename, file), Utf8(CloseDelimiter(boundary)))
    ensures ExtractFile(Body(boundary, filename, file), boundary, filename) == Some(file)
  {
    var prefix := Utf8(Delimiter(boundary) + PartHeaders(filename));
    var suffix := Utf8(CloseDelimiter(boundary));
    var body := Body(boundary, filename, file);
    Utf8Append(Delimiter(boundary), PartHeaders(filename));
    assert body == Utf8(Delimiter(boundary)) + (Utf8(PartHeaders(filename)) + file + suffix);
    AppendParts(Utf8(Delimiter(boundary)), Utf8(PartHeaders(filename)) + file + suffix);
    AppendParts(prefix, file + suffix);
    assert body == prefix + (file + suffix);
    assert body[|body| - |suffix|..] == suffix;
    assert body[|prefix|..|body| - |suffix|] == file;
  }

  /** An HTTP request as the recorders hand it to `urllib`: always a POST. */
  datatype Request = Request(url: string, body: seq<byte>, contentType: string, contentLength: string)

  function UploadRequest(url: string, boundary: string, filename: string, file: seq<byte>): Request {
    var body := Body(boundary, filename, file);
    Request(url, body, "multipart/form-data; boundary=" + boundary, Decimal(|body|))
  }

  /** The Content-Length header reads back as the body's length in bytes, and the
      body carries the file. */
  lemma UploadRequestConsistent(url: string, boundary: string, filename: string, file: seq<byte>)
    ensures var req := UploadRequest(url, boundary, filename, file);
      ParseInt(req.contentLength) == Some(|req.body|) &&
      ExtractFile(req.body, boundary, filename) == Some(file) &&
      EndsWith(req.contentType, boundary)
  {
    ParseDecimal(|Body(boundary, filename, file)|);
    BodyFraming(boundary, filename, file);
    AppendParts("multipart/form-data; boundary=", boundary);
  }
}
