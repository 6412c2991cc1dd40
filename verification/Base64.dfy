/**
 Base64 as the two sides of the service write and read it: Python's encoder and its
 forgiving decoder, the browser's `btoa` and `atob`, and the unpadded URL-safe form
 (section 5 of RFC 4648) both build on top.
 */
module Base64 {
  import opened Wrappers
  import opened Models

  type Sextet = x: int | 0 <= x < 64

  // ------------------------------------------------------------- six bits at a time

  function First(a: Sextet, b: Sextet): byte { a * 4 + b / 16 }
  function Second(b: Sextet, c: Sextet): byte { b % 16 * 16 + c / 4 }
  function Third(c: Sextet, d: Sextet): byte { c % 4 * 64 + d }

  /** The middle sextets of two or three bytes; a missing byte counts as zero. */
  function Upper(a: byte, b: byte): Sextet { a % 4 * 16 + b / 16 }
  function Lower(b: byte, c: byte): Sextet { b % 16 * 4 + c / 64 }

  function Sextets(b: Bytes): seq<Sextet> {
    if |b| == 0 then []
    else if |b| == 1 then [b[0] / 4, Upper(b[0], 0)]
    else if |b| == 2 then [b[0] / 4, Upper(b[0], b[1]), Lower(b[1], 0)]
    else [b[0] / 4, Upper(b[0], b[1]), Lower(b[1], b[2]), b[2] % 64] + Sextets(b[3..])
  }

  /** The whole bytes; what is left of the last sextet is dropped. */
  function Octets(x: seq<Sextet>): Bytes {
    if |x| < 2 then []
    else if |x| == 2 then [First(x[0], x[1])]
    else if |x| == 3 then [First(x[0], x[1]), Second(x[1], x[2])]
    else [First(x[0], x[1]), Second(x[1], x[2]), Third(x[2], x[3])] + Octets(x[4..])
  }

  lemma Regrouped(a: byte, b: byte, c: byte)
    ensures First(a / 4, Upper(a, b)) == a && Second(Upper(a, b), Lower(b, c)) == b && Third(Lower(b, c), c % 64) == c
  {
  }

  lemma {:induction false} OctetsOfSextets(b: Bytes)
    ensures Octets(Sextets(b)) == b && |Sextets(b)| % 4 != 1
    ensures |Sextets(b)| == (|b| * 4 + 2) / 3
    decreases |b|
  {
    hide Upper, Lower, First, Second, Third;
    if |b| >= 3 {
      OctetsOfSextets(b[3..]);
      Regrouped(b[0], b[1], b[2]);
      assert Sextets(b)[4..] == Sextets(b[3..]);
      assert b == [b[0], b[1], b[2]] + b[3..];
    } else if |b| == 2 {
      Regrouped(b[0], b[1], 0);
      assert b == [b[0], b[1]];
    } else if |b| == 1 {
      Regrouped(b[0], 0, 0);
      assert b == [b[0]];
    }
  }

  // ------------------------------------------------------------- alphabets

  function StdChar(x: Sextet): char {
    if x < 26 then ('A' as int + x) as char
    else if x < 52 then ('a' as int + x - 26) as char
    else if x < 62 then ('0' as int + x - 52) as char
    else if x == 62 then '+' else '/'
  }

  function StdValue(c: char): Option<Sextet> {
    if 'A' <= c <= 'Z' then Some(c as int - 'A' as int)
    else if 'a' <= c <= 'z' then Some(c as int - 'a' as int + 26)
    else if '0' <= c <= '9' then Some(c as int - '0' as int + 52)
    else if c == '+' then Some(62) else if c == '/' then Some(63) else None
  }

  lemma StdValueOfChar(x: Sextet)
    ensures StdValue(StdChar(x)) == Some(x) && StdChar(x) != '=' && StdChar(x) !in {'-', '_', '.'}
  {
  }

  function UrlChar(c: char): char { if c == '+' then '-' else if c == '/' then '_' else c }
  function FromUrlChar(c: char): char { if c == '-' then '+' else if c == '_' then '/' else c }

  function ToUrl(s: string): string { seq(|s|, i requires 0 <= i < |s| => UrlChar(s[i])) }
  function FromUrl(s: string): string { seq(|s|, i requires 0 <= i < |s| => FromUrlChar(s[i])) }

  /** Every occurrence of one character replaced. */
  function Replace(s: string, from: char, to: char): string {
    seq(|s|, i requires 0 <= i < |s| => if s[i] == from then to else s[i])
  }

  function Text(x: seq<Sextet>): string { seq(|x|, i requires 0 <= i < |x| => StdChar(x[i])) }

  function Pads(n: nat): string { seq(n, _ => '=') }

  /** How many '=' complete a text of this length: Python's `-n % 4`, the page's `(4 - n % 4) % 4`. */
  function PadCount(n: nat): nat { (4 - n % 4) % 4 }

  lemma {:induction false} PaddingIsTheSame(n: nat)
    ensures PadCount(n) as int == (-(n as int)) % 4 && (n + PadCount(n)) % 4 == 0 && PadCount(n) < 4
  {
    if n >= 4 {
      PaddingIsTheSame(n - 4);
      assert -(n as int) == -((n - 4) as int) - 4;
    } else if n == 0 {
    } else if n == 1 {
    } else if n == 2 {
    } else {
    }
  }

  /** Trailing '=' removed. */
  function Unpad(s: string): string {
    if s != "" && s[|s| - 1] == '=' then Unpad(s[..|s| - 1]) else s
  }

  lemma {:induction false} UnpadPads(s: string, n: nat)
    requires s == "" || s[|s| - 1] != '='
    ensures Unpad(s + Pads(n)) == s
    decreases n
  {
    if n == 0 {
      assert s + Pads(0) == s;
    } else {
      var t := s + Pads(n);
      assert t[..|t| - 1] == s + Pads(n - 1);
      UnpadPads(s, n - 1);
    }
  }

  // ------------------------------------------------------------- encoders

  /** `base64.b64encode` and `btoa`. */
  function Encode(b: Bytes): string { Text(Sextets(b)) + Pads(PadCount(|Sextets(b)|)) }

  /** `base64.urlsafe_b64encode(b).rstrip(b"=")`: the encoder's text translated, then unpadded. */
  function PythonEncode(b: Bytes): string { Unpad(ToUrl(Encode(b))) }

  /** `btoa(binary)` with each '+' and '/' replaced and the trailing '=' removed. */
  function BrowserEncode(b: Bytes): string { Unpad(Replace(Replace(Encode(b), '+', '-'), '/', '_')) }

  /** The URL-safe text of the sextets, without padding. */
  function UrlText(b: Bytes): string { ToUrl(Text(Sextets(b))) }

  lemma EncodersAgree(b: Bytes)
    ensures PythonEncode(b) == UrlText(b) && BrowserEncode(b) == UrlText(b)
  {
    var x := Sextets(b);
    var n := PadCount(|x|);
    forall i | 0 <= i < |x| ensures UrlText(b)[i] != '=' && UrlText(b)[i] !in {'+', '/', '.'} { StdValueOfChar(x[i]); }
    assert ToUrl(Encode(b)) == UrlText(b) + Pads(n);
    UnpadPads(UrlText(b), n);
    assert Replace(Replace(Encode(b), '+', '-'), '/', '_') == UrlText(b) + Pads(n);
  }

  /** Only letters, digits, '-' and '_', and never a length one more than a multiple of four. */
  lemma UrlTextIsSafe(b: Bytes)
    ensures forall c :: c in UrlText(b) ==> 'A' <= c <= 'Z' || 'a' <= c <= 'z' || '0' <= c <= '9' || c == '-' || c == '_'
    ensures |UrlText(b)| % 4 != 1 && |UrlText(b)| == (|b| * 4 + 2) / 3
  {
    OctetsOfSextets(b);
  }

  // ------------------------------------------------------------- Python's decoder

  /**
   `binascii.a2b_base64` without strict mode: characters outside the alphabet are
   skipped, and a pad that completes a quad ends the input. `quad` counts the
   characters of the current quad, `left` is the last of them: the bits of it that
   are not written yet are the ones the next byte takes.
   */
  function A2b(s: string, quad: nat, left: Sextet, pads: nat, done: Bytes): Option<Bytes>
    requires quad < 4
    decreases |s|
  {
    if s == "" then if quad == 0 then Some(done) else None
    else if s[0] == '=' then
      if quad >= 2 && quad + pads + 1 >= 4 then Some(done)
      else A2b(s[1..], quad, left, if quad >= 2 then pads + 1 else pads, done)
    else if StdValue(s[0]).None? then A2b(s[1..], quad, left, pads, done)
    else
      var v := StdValue(s[0]).value;
      if quad == 0 then A2b(s[1..], 1, v, 0, done)
      else if quad == 1 then A2b(s[1..], 2, v, 0, done + [First(left, v)])
      else if quad == 2 then A2b(s[1..], 3, v, 0, done + [Second(left, v)])
      else A2b(s[1..], 0, 0, 0, done + [Third(left, v)])
  }

  predicate Ascii(s: string) { forall c :: c in s ==> c as int < 128 }

  /** `base64.b64decode(text)`; text that is not ASCII is refused. */
  function PythonDecode(s: string): Option<Bytes> { if Ascii(s) then A2b(s, 0, 0, 0, []) else None }

  /** Pads to whole quads, then decodes. */
  function PythonUrlDecode(s: string): Option<Bytes> { PythonDecode(FromUrl(s + Pads(PadCount(|s|)))) }

  lemma A2bStep(x: Sextet, rest: string, quad: nat, left: Sextet, done: Bytes)
    requires quad < 4
    ensures A2b([StdChar(x)] + rest, quad, left, 0, done) ==
      if quad == 0 then A2b(rest, 1, x, 0, done)
      else if quad == 1 then A2b(rest, 2, x, 0, done + [First(left, x)])
      else if quad == 2 then A2b(rest, 3, x, 0, done + [Second(left, x)])
      else A2b(rest, 0, 0, 0, done + [Third(left, x)])
  {
  }

  lemma A2bPads(quad: nat, left: Sextet, done: Bytes)
    requires quad in {0, 2, 3}
    ensures A2b(Pads(PadCount(quad)), quad, left, 0, done) == Some(done)
  {
  }

  lemma A2bTwo(a: Sextet, b: Sextet, done: Bytes)
    ensures A2b([StdChar(a), StdChar(b)] + Pads(2), 0, 0, 0, done) == Some(done + [First(a, b)])
  {
    hide A2b, StdChar, First;
    var r := [StdChar(b)] + Pads(2);
    assert [StdChar(a), StdChar(b)] + Pads(2) == [StdChar(a)] + r;
    A2bStep(a, r, 0, 0, done);
    A2bStep(b, Pads(2), 1, a, done);
    A2bPads(2, b, done + [First(a, b)]);
  }

  lemma A2bThree(a: Sextet, b: Sextet, c: Sextet, done: Bytes)
    ensures A2b([StdChar(a), StdChar(b), StdChar(c)] + Pads(1), 0, 0, 0, done) == Some(done + [First(a, b), Second(b, c)])
  {
    hide A2b, StdChar, First, Second;
    var r2 := [StdChar(c)] + Pads(1);
    var r1 := [StdChar(b)] + r2;
    assert [StdChar(a), StdChar(b), StdChar(c)] + Pads(1) == [StdChar(a)] + r1;
    A2bStep(a, r1, 0, 0, done);
    A2bStep(b, r2, 1, a, done);
    A2bStep(c, Pads(1), 2, b, done + [First(a, b)]);
    A2bPads(3, c, done + [First(a, b)] + [Second(b, c)]);
    assert done + [First(a, b)] + [Second(b, c)] == done + [First(a, b), Second(b, c)];
  }

  /** The decoder reads whole quads, then what is left with its padding. */
  lemma {:induction false} A2bReads(x: seq<Sextet>, done: Bytes)
    requires |x| % 4 != 1
    ensures A2b(Text(x) + Pads(PadCount(|x|)), 0, 0, 0, done) == Some(done + Octets(x))
    decreases |x|
  {
    hide A2b, StdChar, First, Second, Third;
    var p := Pads(PadCount(|x|));
    if |x| == 0 {
      assert Text(x) + p == Pads(PadCount(0)) && done + Octets(x) == done;
      A2bPads(0, 0, done);
    } else if |x| == 2 {
      assert Text(x) + p == [StdChar(x[0]), StdChar(x[1])] + Pads(2);
      A2bTwo(x[0], x[1], done);
    } else if |x| == 3 {
      assert Text(x) + p == [StdChar(x[0]), StdChar(x[1]), StdChar(x[2])] + Pads(1);
      A2bThree(x[0], x[1], x[2], done);
    } else {
      var rest := Text(x[4..]) + p;
      A2bQuad(x[0], x[1], x[2], x[3], rest, done);
      assert Text(x) + p == [StdChar(x[0]), StdChar(x[1]), StdChar(x[2]), StdChar(x[3])] + rest;
      var three := [First(x[0], x[1]), Second(x[1], x[2]), Third(x[2], x[3])];
      A2bReads(x[4..], done + three);
      assert PadCount(|x[4..]|) == PadCount(|x|);
      assert (done + three) + Octets(x[4..]) == done + Octets(x);
    }
  }

  lemma A2bQuad(a: Sextet, b: Sextet, c: Sextet, d: Sextet, rest: string, done: Bytes)
    ensures A2b([StdChar(a), StdChar(b), StdChar(c), StdChar(d)] + rest, 0, 0, 0, done) ==
      A2b(rest, 0, 0, 0, done + [First(a, b), Second(b, c), Third(c, d)])
  {
    hide A2b, StdChar;
    var r3 := [StdChar(d)] + rest;
    var r2 := [StdChar(c)] + r3;
    var r1 := [StdChar(b)] + r2;
    assert [StdChar(a), StdChar(b), StdChar(c), StdChar(d)] + rest == [StdChar(a)] + r1;
    A2bStep(a, r1, 0, 0, done);
    A2bStep(b, r2, 1, a, done);
    A2bStep(c, r3, 2, b, done + [First(a, b)]);
    A2bStep(d, rest, 3, c, done + [First(a, b)] + [Second(b, c)]);
    assert done + [First(a, b)] + [Second(b, c)] + [Third(c, d)] ==
      done + [First(a, b), Second(b, c), Third(c, d)];
  }

  lemma TextIsAscii(x: seq<Sextet>, n: nat)
    ensures Ascii(Text(x) + Pads(n))
  {
  }

  lemma TranslatedBack(b: Bytes)
    ensures FromUrl(UrlText(b) + Pads(PadCount(|UrlText(b)|))) == Encode(b)
  {
  }

  /** Python reads back what either side wrote, padded and standard or unpadded and URL-safe. */
  lemma PythonReadsBoth(b: Bytes)
    ensures PythonDecode(Encode(b)) == Some(b)
    ensures PythonUrlDecode(PythonEncode(b)) == Some(b) && PythonUrlDecode(BrowserEncode(b)) == Some(b)
  {
    hide A2b, Sextets, Octets;
    OctetsOfSextets(b);
    A2bReads(Sextets(b), []);
    TextIsAscii(Sextets(b), PadCount(|Sextets(b)|));
    EncodersAgree(b);
    TranslatedBack(b);
    assert [] + Octets(Sextets(b)) == b;
  }

  // ------------------------------------------------------------- the browser's decoder

  predicate Whitespace(c: char) { c in "\t\n\U{000C}\r " }

  function WithoutSpace(s: string): string {
    if s == "" then "" else (if Whitespace(s[0]) then "" else [s[0]]) + WithoutSpace(s[1..])
  }

  /** At most two trailing '=', and only where they complete a quad. */
  function Trimmed(s: string): string {
    if |s| % 4 != 0 || s == "" || s[|s| - 1] != '=' then s
    else if s[|s| - 2] == '=' then s[..|s| - 2]
    else s[..|s| - 1]
  }

  predicate AllInAlphabet(s: string) { forall c :: c in s ==> StdValue(c).Some? }

  function Values(s: string): seq<Sextet>
    requires AllInAlphabet(s)
  {
    seq(|s|, i requires 0 <= i < |s| => StdValue(s[i]).value)
  }

  /** `atob`: the forgiving-base64 decode of the Infra standard. */
  function Atob(s: string): Option<Bytes> {
    var t := Trimmed(WithoutSpace(s));
    if |t| % 4 == 1 || !AllInAlphabet(t) then None else Some(Octets(Values(t)))
  }

  /** `b64urlToBuf`: translated, padded, decoded. */
  function BrowserDecode(s: string): Option<Bytes> {
    Atob(Replace(Replace(s, '-', '+'), '_', '/') + Pads(PadCount(|s|)))
  }

  lemma {:induction false} NoSpaceToRemove(s: string)
    requires forall c :: c in s ==> !Whitespace(c)
    ensures WithoutSpace(s) == s
    decreases |s|
  {
    if s != "" {
      assert forall c :: c in s[1..] ==> c in s;
      NoSpaceToRemove(s[1..]);
      assert s == [s[0]] + s[1..];
    }
  }

  lemma TrimmedPads(t: string)
    requires |t| % 4 != 1 && (t == "" || t[|t| - 1] != '=')
    ensures Trimmed(t + Pads(PadCount(|t|))) == t
  {
  }

  lemma TextIsClean(x: seq<Sextet>, n: nat)
    ensures forall i :: 0 <= i < |x| ==> StdValue(Text(x)[i]) == Some(x[i]) && Text(x)[i] != '='
    ensures forall c :: c in Text(x) + Pads(n) ==> !Whitespace(c)
    ensures AllInAlphabet(Text(x)) && Values(Text(x)) == x
  {
  }

  lemma AtobReads(x: seq<Sextet>)
    requires |x| % 4 != 1
    ensures Atob(Text(x) + Pads(PadCount(|x|))) == Some(Octets(x))
  {
    hide Octets, StdValue, StdChar, Trimmed, WithoutSpace, Whitespace;
    TextIsClean(x, PadCount(|x|));
    NoSpaceToRemove(Text(x) + Pads(PadCount(|x|)));
    TrimmedPads(Text(x));
  }

  /** The page reads back what either side wrote. */
  lemma BrowserReadsBoth(b: Bytes)
    ensures Atob(Encode(b)) == Some(b)
    ensures BrowserDecode(BrowserEncode(b)) == Some(b) && BrowserDecode(PythonEncode(b)) == Some(b)
  {
    hide Sextets, Octets, Atob;
    OctetsOfSextets(b);
    AtobReads(Sextets(b));
    EncodersAgree(b);
    TranslatedBack(b);
    var u, n := UrlText(b), PadCount(|UrlText(b)|);
    assert Replace(Replace(u, '-', '+'), '_', '/') + Pads(n) == FromUrl(u + Pads(n));
  }

  lemma SkipsOne(c: char, s: string, done: Bytes)
    requires StdValue(c).None? && c != '='
    ensures A2b([c] + s, 0, 0, 0, done) == A2b(s, 0, 0, 0, done)
  {
  }

  lemma SkipsFour(s: string)
    ensures A2b("!!!!" + s, 0, 0, 0, []) == A2b(s, 0, 0, 0, [])
  {
    hide A2b;
    assert "!!!!" + s == ['!'] + ("!!!" + s) && "!!!" + s == ['!'] + ("!!" + s) && "!!" + s == ['!'] + ("!" + s) && "!" + s == ['!'] + s;
    SkipsOne('!', "!!!" + s, []);
    SkipsOne('!', "!!" + s, []);
    SkipsOne('!', "!" + s, []);
    SkipsOne('!', s, []);
  }

  lemma AtobRefuses(s: string)
    requires |s| >= 4 && s[0] == '!'
    ensures Atob(s) == None
  {
  }

  /** The decoders are not the same function: Python skips what is not in the alphabet, the page refuses it. */
  lemma OnlyPythonSkips(b: Bytes)
    ensures PythonUrlDecode("!!!!" + PythonEncode(b)) == Some(b) && BrowserDecode("!!!!" + PythonEncode(b)) == None
  {
    hide A2b, Atob, Sextets, WithoutSpace, Trimmed;
    PythonReadsBoth(b);
    EncodersAgree(b);
    var u := PythonEncode(b);
    var padded := FromUrl(u + Pads(PadCount(|u|)));
    assert PadCount(|"!!!!" + u|) == PadCount(|u|);
    assert FromUrl("!!!!" + u + Pads(PadCount(|u|))) == "!!!!" + padded;
    SkipsFour(padded);
    var t := Replace(Replace("!!!!" + u, '-', '+'), '_', '/') + Pads(PadCount(|"!!!!" + u|));
    assert t[0] == '!';
    AtobRefuses(t);
  }

  // ------------------------------------------------------------- the page's functions

  /** A binary string: one character per byte. */
  function Binary(b: Bytes): string { seq(|b|, i requires 0 <= i < |b| => b[i] as char) }

  predicate IsBinary(s: string) { forall i :: 0 <= i < |s| ==> s[i] as int < 256 }

  function BytesOf(s: string): Bytes
    requires IsBinary(s)
  {
    seq<byte>(|s|, i requires 0 <= i < |s| => s[i] as int)
  }

  /** The browser's `btoa`, on a string whose characters are all bytes. */
  function Btoa(binary: string): string
    requires IsBinary(binary)
  {
    Encode(BytesOf(binary))
  }

  /** `bufToB64url`: the buffer's bytes appended to a binary string one by one, then encoded. */
  method BufToB64url(buf: array<byte>) returns (s: string)
    ensures s == BrowserEncode(buf[..])
  {
    var binary := "";
    for i := 0 to buf.Length
      invariant binary == Binary(buf[..i])
    {
      binary := binary + [buf[i] as char];
    }
    assert buf[..buf.Length] == buf[..];
    assert IsBinary(binary) && BytesOf(binary) == buf[..];
    s := Unpad(Replace(Replace(Btoa(binary), '+', '-'), '/', '_'));
  }

  /** `b64urlToBuf`: the decoded binary string copied into a byte array; `ok` is false where `atob` throws. */
  method B64urlToBuf(value: string) returns (ok: bool, buf: array<byte>)
    ensures ok <==> BrowserDecode(value).Some?
    ensures ok ==> buf[..] == BrowserDecode(value).value
  {
    var pad := Pads((4 - |value| % 4) % 4);
    var decoded := Atob(Replace(Replace(value, '-', '+'), '_', '/') + pad);
    if decoded.None? {
      return false, new byte[0];
    }
    var binary := Binary(decoded.value);
    buf := new byte[|binary|];
    for i := 0 to |binary|
      invariant buf[..i] == decoded.value[..i]
    {
      buf[i] := binary[i] as int as byte;
    }
    ok := true;
  }
}
