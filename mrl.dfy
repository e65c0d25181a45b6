/** Conversion between engine media locators (MRLs, `file://` URIs) and local
    paths. A path is written into a URI by percent-encoding every byte outside
    the unreserved set of section 2.3 of RFC 3986 (the separators '/' and ':'
    are kept), and read back by percent-decoding as in section 2.1 of RFC 3986.
    A path that starts with a drive letter is written after an empty authority
    and a slash ("file:///C:/a/b"), as in Appendix E.2 of RFC 8089, and that
    slash is dropped again when reading. */
module Mrl {
  import opened Results

  const FileScheme: string := "file://"

  predicate IsAsciiLetter(c: char) { 'a' <= c <= 'z' || 'A' <= c <= 'Z' }

  predicate IsHexDigit(c: char) { '0' <= c <= '9' || 'a' <= c <= 'f' || 'A' <= c <= 'F' }

  function HexValue(c: char): (n: nat)
    requires IsHexDigit(c)
    ensures n < 16
  {
    if '0' <= c <= '9' then (c as int - '0' as int) as nat
    else if 'a' <= c <= 'f' then (c as int - 'a' as int + 10) as nat
    else (c as int - 'A' as int + 10) as nat
  }

  /** Upper-case hexadecimal digit, the form RFC 3986 recommends for encoding. */
  function HexDigit(n: nat): (c: char)
    requires n < 16
    ensures IsHexDigit(c) && HexValue(c) == n
  {
    if n < 10 then ('0' as int + n) as char else ('A' as int + n - 10) as char
  }

  /** Characters written as they are: the unreserved set and the path separators.
      Characters beyond one byte are not escaped either. */
  predicate IsKept(c: char)
  {
    IsAsciiLetter(c) || '0' <= c <= '9' || c == '-' || c == '.' || c == '_' || c == '~'
    || c == '/' || c == ':' || c as int >= 256
  }

  function EncodeChar(c: char): (e: string)
    ensures IsKept(c) ==> e == [c]
    ensures !IsKept(c) ==> |e| == 3 && e[0] == '%' && IsHexDigit(e[1]) && IsHexDigit(e[2])
                           && (16 * HexValue(e[1]) + HexValue(e[2])) as char == c
  {
    if IsKept(c) then [c] else ['%', HexDigit(c as int / 16), HexDigit(c as int % 16)]
  }

  function PercentEncode(p: string): string
  {
    if |p| == 0 then "" else EncodeChar(p[0]) + PercentEncode(p[1..])
  }

  /** Percent-decoding: "%" and two hexadecimal digits stand for one character;
      any other character, a lone "%" included, stands for itself. */
  function PercentDecode(s: string): string
  {
    if |s| == 0 then ""
    else if |s| >= 3 && s[0] == '%' && IsHexDigit(s[1]) && IsHexDigit(s[2]) then
      [(16 * HexValue(s[1]) + HexValue(s[2])) as char] + PercentDecode(s[3..])
    else [s[0]] + PercentDecode(s[1..])
  }

  /** A path such as "C:/a/b". */
  predicate IsDrivePath(p: string) { |p| >= 2 && IsAsciiLetter(p[0]) && p[1] == ':' }

  /** The URI path of a drive-letter path: "/C:/a/b". */
  predicate IsSlashDrive(p: string) { |p| >= 3 && p[0] == '/' && IsAsciiLetter(p[1]) && p[2] == ':' }

  function StripDriveSlash(p: string): (r: string)
    ensures IsSlashDrive(p) ==> r == p[1..] && IsDrivePath(r)
    ensures !IsSlashDrive(p) ==> r == p
  {
    if IsSlashDrive(p) then p[1..] else p
  }

  /** The part of a locator after its scheme contains no escape. */
  predicate NoEscape(s: string) { forall i :: 0 <= i < |s| ==> s[i] != '%' }

  /** mrl_to_path: the local path of a `file://` locator; None for any other
      locator. The locator the player writes for a path reads back as that
      path, and a locator without escapes reads as its own text after the
      scheme, less the slash before a drive letter. */
  function MrlToPath(mrl: string): (r: Option<string>)
    ensures r.Some? <==> |mrl| >= |FileScheme| && mrl[..|FileScheme|] == FileScheme
    ensures forall p :: !IsSlashDrive(p) && mrl == PathToMrl(p) ==> r == Some(p)
    ensures r.Some? && NoEscape(mrl[|FileScheme|..]) && !IsSlashDrive(mrl[|FileScheme|..])
            ==> r.value == mrl[|FileScheme|..]
    ensures r.Some? && NoEscape(mrl[|FileScheme|..]) && IsSlashDrive(mrl[|FileScheme|..])
            ==> r.value == mrl[|FileScheme| + 1..]
  {
    if |mrl| >= |FileScheme| && mrl[..|FileScheme|] == FileScheme then
      var rest := mrl[|FileScheme|..];
      assert forall p :: !IsSlashDrive(p) && mrl == PathToMrl(p)
                         ==> StripDriveSlash(PercentDecode(rest)) == p by {
        forall p | !IsSlashDrive(p) && mrl == PathToMrl(p) {
          PathMrlReadsBack(p);
        }
      }
      assert NoEscape(rest) ==> PercentDecode(rest) == rest by {
        if NoEscape(rest) {
          assert rest + "" == rest;
          DecodePlainPrefix(rest, "");
        }
      }
      Some(StripDriveSlash(PercentDecode(rest)))
    else None
  }

  /** path_to_mrl: the locator the player gives the engine for a local path. */
  function PathToMrl(p: string): (m: string)
    ensures |m| >= |FileScheme| && m[..|FileScheme|] == FileScheme
  {
    FileScheme + (if IsDrivePath(p) then "/" else "") + PercentEncode(p)
  }

  lemma {:induction false} DecodeEncode(p: string)
    ensures PercentDecode(PercentEncode(p)) == p
  {
    if |p| > 0 {
      var e := EncodeChar(p[0]);
      var rest := PercentEncode(p[1..]);
      DecodeEncode(p[1..]);
      assert PercentEncode(p) == e + rest;
      if IsKept(p[0]) {
        DecodeKept(p[0], rest);
      } else {
        assert (e + rest)[3..] == rest;
      }
    }
  }

  lemma DecodeKept(c: char, rest: string)
    requires c != '%'
    ensures PercentDecode([c] + rest) == [c] + PercentDecode(rest)
  {
    assert ([c] + rest)[1..] == rest;
  }

  /** The text after the scheme of a path's locator decodes back to the path.
      The one exception is a path that itself starts with "/X:", which
      RFC 8089 reads as a drive letter. */
  lemma PathMrlReadsBack(p: string)
    requires !IsSlashDrive(p)
    ensures StripDriveSlash(PercentDecode(PathToMrl(p)[|FileScheme|..])) == p
  {
    var m := PathToMrl(p);
    DecodeEncode(p);
    if IsDrivePath(p) {
      assert m[|FileScheme|..] == "/" + PercentEncode(p);
      DecodeKept('/', PercentEncode(p));
    } else {
      assert m[|FileScheme|..] == PercentEncode(p);
    }
  }

  /** A prefix without '%' decodes to itself. */
  lemma {:induction false} DecodePlainPrefix(a: string, b: string)
    requires forall i :: 0 <= i < |a| ==> a[i] != '%'
    ensures PercentDecode(a + b) == a + PercentDecode(b)
    decreases |a|
  {
    if |a| > 0 {
      DecodeKept(a[0], a[1..] + b);
      assert a + b == [a[0]] + (a[1..] + b);
      DecodePlainPrefix(a[1..], b);
    } else {
      assert a + b == b;
    }
  }

  /** The locators of the tests: a plain path, an escaped space and a drive letter. */
  lemma PlainMrl()
    ensures MrlToPath("file:///a/b/c") == Some("/a/b/c")
  {
    var m := "file:///a/b/c";
    assert m[..|FileScheme|] == FileScheme;
    assert PercentDecode(m[|FileScheme|..]) == "/a/b/c" by {
      assert m[|FileScheme|..] == "/a/b/c" + "";
      DecodePlainPrefix("/a/b/c", "");
    }
  }

  lemma EscapedSpaceMrl()
    ensures MrlToPath("file:///a/b%20b/c") == Some("/a/b b/c")
  {
    var m := "file:///a/b%20b/c";
    assert m[..|FileScheme|] == FileScheme;
    var tail := "%20" + ("b/c" + "");
    assert PercentDecode(tail) == " b/c" by {
      assert tail[3..] == "b/c" + "";
      DecodePlainPrefix("b/c", "");
    }
    assert PercentDecode(m[|FileScheme|..]) == "/a/b b/c" by {
      assert m[|FileScheme|..] == "/a/b" + tail;
      DecodePlainPrefix("/a/b", tail);
    }
  }

  lemma DriveLetterMrl()
    ensures MrlToPath("file:///C:/a/b") == Some("C:/a/b")
  {
    var m := "file:///C:/a/b";
    assert m[..|FileScheme|] == FileScheme;
    assert PercentDecode(m[|FileScheme|..]) == "/C:/a/b" by {
      assert m[|FileScheme|..] == "/C:/a/b" + "";
      DecodePlainPrefix("/C:/a/b", "");
    }
  }
}
