/**
 * Artifact naming: the file-name stem derived from a URL and the day-keyed folder name
 * (server/src/utils/formatters.ts).
 */
module Formatters {
  import opened Text

  const HttpPrefix := "http://"
  const HttpsPrefix := "https://"
  const WwwPrefix := "www."

  /** `url.replace(/^https?:\/\//, '')`: one leading `http://` or `https://` goes. */
  function StripScheme(url: string): string {
    if HttpPrefix <= url then url[|HttpPrefix|..]
    else if HttpsPrefix <= url then url[|HttpsPrefix|..]
    else url
  }

  /** `.replace(/^www\./, '')`: one leading `www.` goes. */
  function StripWww(s: string): string {
    if WwwPrefix <= s then s[|WwwPrefix|..] else s
  }

  /** The URL with its scheme and then its `www.` removed. */
  function Stripped(url: string): string {
    StripWww(StripScheme(url))
  }

  /** How many leading characters the two prefix replacements remove. */
  function PrefixLength(url: string): (k: nat)
    ensures k <= |url| && Stripped(url) == url[k..]
    ensures url[..k] in {"", WwwPrefix, HttpPrefix, HttpsPrefix, HttpPrefix + WwwPrefix, HttpsPrefix + WwwPrefix}
  {
    var s := if HttpPrefix <= url then |HttpPrefix| else if HttpsPrefix <= url then |HttpsPrefix| else 0;
    var scheme := url[..s];
    assert scheme == "" || scheme == HttpPrefix || scheme == HttpsPrefix;
    assert StripScheme(url) == url[s..];
    var w := if WwwPrefix <= url[s..] then |WwwPrefix| else 0;
    assert url[s..][w..] == url[s + w..];
    assert url[..s + w] == scheme + url[s..][..w];
    assert url[s..][..w] == "" || url[s..][..w] == WwwPrefix;
    s + w
  }

  predicate IsAsciiLower(c: char) {
    'a' <= c <= 'z'
  }

  predicate IsAsciiUpper(c: char) {
    'A' <= c <= 'Z'
  }

  /** A character the class `[a-z0-9]` matches under the `i` flag. */
  predicate IsAsciiAlnum(c: char) {
    IsAsciiLower(c) || IsAsciiUpper(c) || IsDigit(c)
  }

  /** `.replace(/[^a-z0-9]/gi, '_')`: every other character becomes an underscore. */
  function ReplaceNonAlnum(s: string): (r: string)
    ensures |r| == |s|
  {
    seq(|s|, i requires 0 <= i < |s| => if IsAsciiAlnum(s[i]) then s[i] else '_')
  }

  function LowerChar(c: char): char {
    if IsAsciiUpper(c) then (c as int + ('a' as int - 'A' as int)) as char else c
  }

  /** `.toLowerCase()` on a string of ASCII characters, the only ones that reach it. */
  function ToLowerCase(s: string): (r: string)
    ensures |r| == |s|
  {
    seq(|s|, i requires 0 <= i < |s| => LowerChar(s[i]))
  }

  /** A character a sanitized name may contain: `[a-z0-9_]`. */
  predicate IsSafeChar(c: char) {
    IsAsciiLower(c) || IsDigit(c) || c == '_'
  }

  predicate IsSafeName(s: string) {
    forall i :: 0 <= i < |s| ==> IsSafeChar(s[i])
  }

  /** What sanitizing does to one character, stated directly: lower-case ASCII letters
      and digits stay, upper-case ASCII letters are lower-cased, all else becomes `_`. */
  function SanitizeChar(c: char): (d: char)
    ensures IsSafeChar(d)
  {
    if IsAsciiLower(c) || IsDigit(c) then c
    else if IsAsciiUpper(c) then (c as int + 32) as char
    else '_'
  }

  /** `sanitizeFilename`: the file-name stem of a capture. The replace-then-lower-case
      pipeline maps each remaining character on its own, so the name is as long as the
      URL without its prefixes and holds only `[a-z0-9_]`. */
  function SanitizeFilename(url: string): string {
    ToLowerCase(ReplaceNonAlnum(Stripped(url)))
  }

  /** The pipeline maps each character after the prefixes on its own: the name is as long
      as the rest of the URL, character i is `SanitizeChar` of the rest's character i, and
      the name holds only `[a-z0-9_]`. */
  lemma SanitizeFilenameChars(url: string)
    ensures var r := SanitizeFilename(url);
      && |r| == |url| - PrefixLength(url)
      && (forall i :: 0 <= i < |r| ==> r[i] == SanitizeChar(url[PrefixLength(url) + i]))
      && IsSafeName(r)
  {
  }

  /** No path separator, dot or URL punctuation survives, so the stem can be neither
      `.` nor `..` nor hold a directory part. */
  lemma SanitizedHasNoSeparators(url: string)
    ensures var r := SanitizeFilename(url);
      '/' !in r && '.' !in r && ':' !in r && '?' !in r && '=' !in r && '\\' !in r
  {
    var r := SanitizeFilename(url);
    SanitizeFilenameChars(url);
    forall c | c in r ensures IsSafeChar(c) {
      var i :| 0 <= i < |r| && r[i] == c;
    }
  }

  /** Every character of a prefix of `r` occurs in `r`. */
  lemma PrefixCharsOccur(p: string, r: string)
    ensures p <= r ==> forall c :: c in p ==> c in r
  {
    if p <= r {
      forall c | c in p ensures c in r {
        var i :| 0 <= i < |p| && p[i] == c;
        assert r[i] == c;
      }
    }
  }

  /** A name that is already safe has neither prefix (both need `:` or `.`) and every
      character maps to itself. */
  lemma {:induction false} SanitizeIdempotent(url: string)
    ensures SanitizeFilename(SanitizeFilename(url)) == SanitizeFilename(url)
  {
    var r := SanitizeFilename(url);
    SanitizedHasNoSeparators(url);
    PrefixCharsOccur(HttpPrefix, r);
    PrefixCharsOccur(HttpsPrefix, r);
    PrefixCharsOccur(WwwPrefix, r);
    assert ':' in HttpPrefix && ':' in HttpsPrefix && '.' in WwwPrefix;
    assert PrefixLength(r) == 0;
    SanitizeFilenameChars(r);
    var rr := SanitizeFilename(r);
    forall i | 0 <= i < |r| ensures rr[i] == r[i] {
      assert IsSafeChar(r[i]);
    }
  }

  /** The worked example: scheme and `www.` go, punctuation becomes underscores. */
  lemma SanitizeExample()
    ensures SanitizeFilename("https://www.example.com/a?b=1") == "example_com_a_b_1"
  {
    var url := "https://www.example.com/a?b=1";
    var rest := "example.com/a?b=1";
    var t := "example_com_a_b_1";
    ExamplePrefix(url, rest);
    ExampleChars(rest, t);
    SanitizeFilenameChars(url);
    var r := SanitizeFilename(url);
    forall i | 0 <= i < |t| ensures r[i] == t[i] {
      assert r[i] == SanitizeChar(rest[i]);
    }
  }

  lemma ExamplePrefix(url: string, rest: string)
    requires url == "https://www.example.com/a?b=1" && rest == "example.com/a?b=1"
    ensures PrefixLength(url) == 12 && url[12..] == rest
  {
    assert !(HttpPrefix <= url) by { assert url[4] != HttpPrefix[4]; }
    assert HttpsPrefix <= url;
    assert StripScheme(url) == url[8..];
    assert WwwPrefix <= url[8..];
    assert Stripped(url) == url[12..];
  }

  lemma ExampleChars(rest: string, t: string)
    requires rest == "example.com/a?b=1" && t == "example_com_a_b_1"
    ensures |rest| == |t| && forall i :: 0 <= i < |t| ==> SanitizeChar(rest[i]) == t[i]
  {
  }

  /** Padding a digit string with zeros keeps it a digit string. */
  lemma PadDigits(s: string, width: nat)
    requires AllDigits(s)
    ensures AllDigits(PadStart(s, width, '0'))
  {
    var p := PadStart(s, width, '0');
    forall i | 0 <= i < |p| ensures IsDigit(p[i]) {
      if i >= |p| - |s| { assert p[i] == p[|p| - |s|..][i - (|p| - |s|)]; }
    }
  }

  /** Two digit strings joined by `_` hold only digits and that underscore. */
  lemma JoinedDigits(a: string, b: string)
    requires AllDigits(a) && AllDigits(b)
    ensures var r := a + "_" + b; forall i :: 0 <= i < |r| ==> IsDigit(r[i]) || r[i] == '_'
  {
    var r := a + "_" + b;
    forall i | 0 <= i < |r| ensures IsDigit(r[i]) || r[i] == '_' {
      if i < |a| { assert r[i] == a[i]; }
      else if i > |a| { assert r[i] == b[i - |a| - 1]; }
    }
  }

  /** `getDateFolder` for the day of the month and the zero-based month of `new Date()`:
      each number padded to two digits, joined by `_`. */
  function DateFolder(day: nat, monthIndex: nat): (r: string)
    ensures forall i :: 0 <= i < |r| ==> IsDigit(r[i]) || r[i] == '_'
  {
    var dd := PadStart(NatToString(day), 2, '0');
    var mm := PadStart(NatToString(monthIndex + 1), 2, '0');
    NatToStringDigits(day);
    NatToStringDigits(monthIndex + 1);
    PadDigits(NatToString(day), 2);
    PadDigits(NatToString(monthIndex + 1), 2);
    JoinedDigits(dd, mm);
    dd + "_" + mm
  }

  /** A two-digit padded number reads back as the number. */
  lemma PaddedTwoDigits(n: nat)
    requires n < 100
    ensures var p := PadStart(NatToString(n), 2, '0');
      |p| == 2 && AllDigits(p) && ParseDecimal(p) == n
  {
    ParseNatToString(n);
    NatToStringLength(n);
    var s := NatToString(n);
    if n < 10 {
      assert PadStart(s, 2, '0') == "0" + s;
      ParseLeadingZero(s);
    }
  }

  /** For a real calendar date the folder is `DD_MM`, five characters, and reading the two
      numbers back gives the day and the one-based month. */
  lemma DateFolderRoundTrip(day: nat, monthIndex: nat)
    requires 1 <= day <= 31 && monthIndex <= 11
    ensures var r := DateFolder(day, monthIndex);
      && |r| == 5 && r[2] == '_'
      && AllDigits(r[..2]) && ParseDecimal(r[..2]) == day
      && AllDigits(r[3..]) && ParseDecimal(r[3..]) == monthIndex + 1
  {
    PaddedTwoDigits(day);
    PaddedTwoDigits(monthIndex + 1);
    var r := DateFolder(day, monthIndex);
    assert r[..2] == PadStart(NatToString(day), 2, '0');
    assert r[3..] == PadStart(NatToString(monthIndex + 1), 2, '0');
  }

  /** Two dates of a year share a folder only when they are the same day. */
  lemma DateFolderInjective(d1: nat, m1: nat, d2: nat, m2: nat)
    requires 1 <= d1 <= 31 && m1 <= 11 && 1 <= d2 <= 31 && m2 <= 11
    requires DateFolder(d1, m1) == DateFolder(d2, m2)
    ensures d1 == d2 && m1 == m2
  {
    DateFolderRoundTrip(d1, m1);
    DateFolderRoundTrip(d2, m2);
  }
}
