/**
 * `JSON.stringify` of the records that cross the wire: a progress event with its optional
 * result, the fatal-error object and the validation-error object. Member order is the
 * order in which the source creates the properties; absent optional properties are
 * omitted, as `JSON.stringify` omits `undefined`.
 */
module Json {
  import opened Wrappers
  import opened Text
  import opened Scraper

  function HexDigit(d: nat): (c: char)
    requires d < 16
  {
    if d < 10 then DigitChar(d) else ('a' as int + d - 10) as char
  }

  /** The escape `JSON.stringify` writes for one character inside a string literal
      (QuoteJSONString, section 25.5.2.3 of ECMA-262): the quote and the backslash are
      escaped, the five control characters with a short form use it, every other
      control character becomes `\u00` and two lower-case hex digits. */
  function EscapeChar(c: char): string {
    if c == '"' then ['\\', '"']
    else if c == '\\' then ['\\', '\\']
    else if c == '\U{8}' then ['\\', 'b']
    else if c == '\t' then ['\\', 't']
    else if c == '\n' then ['\\', 'n']
    else if c == '\U{C}' then ['\\', 'f']
    else if c == '\r' then ['\\', 'r']
    else if c < ' ' then ['\\', 'u', '0', '0', HexDigit(c as int / 16), HexDigit(c as int % 16)]
    else [c]
  }

  function Escape(s: string): string {
    if s == [] then [] else EscapeChar(s[0]) + Escape(s[1..])
  }

  /** A JSON string literal. */
  function Quote(s: string): string {
    "\"" + Escape(s) + "\""
  }

  /** A name made of ASCII letters only: every property key and enumerated value the
      records use. */
  predicate IsPlainName(k: string) {
    forall i :: 0 <= i < |k| ==> 'a' <= k[i] <= 'z' || 'A' <= k[i] <= 'Z'
  }

  /** A plain name between quotes; `NameIsQuote` shows it is the string literal. */
  function Name(k: string): string {
    "\"" + k + "\""
  }

  function Member(key: string, value: string): string {
    Name(key) + ":" + value
  }

  function Object(members: seq<string>): string {
    "{" + (if members == [] then "" else Join(members, ',')) + "}"
  }

  /** An optional string property: written when present, omitted when `undefined`. */
  function OptionalMember(key: string, value: Option<string>): seq<string> {
    if value.Some? then [Member(key, Quote(value.value))] else []
  }

  function StatusText(s: Status): string {
    match s
    case Success => "success"
    case Error => "error"
  }

  function PhaseText(p: Phase): string {
    match p
    case Processing => "processing"
    case Completed => "completed"
  }

  /** A result: `url` and `status` first, then what the capture (or the enrichment)
      added, in that order. */
  function EncodeResult(r: ScrapeResult): string {
    Object(ResultMembers(r))
  }

  function ResultMembers(r: ScrapeResult): seq<string> {
    [Member("url", Quote(r.url)), Member("status", Name(StatusText(r.status)))]
      + OptionalMember("filename", r.filename)
      + OptionalMember("localPath", r.localPath)
      + OptionalMember("publicPath", r.publicPath)
      + OptionalMember("message", r.message)
      + OptionalMember("downloadUrl", r.downloadUrl)
  }

  function EncodeProgress(e: ProgressUpdate): string {
    Object(ProgressMembers(e))
  }

  function ProgressMembers(e: ProgressUpdate): seq<string> {
    ProgressHead(e) + (if e.result.Some? then [Member("result", EncodeResult(e.result.value))] else [])
  }

  function ProgressHead(e: ProgressUpdate): seq<string> {
    [Member("current", IntToString(e.current)), Member("total", IntToString(e.total)),
            Member("percent", IntToString(e.percent)), Member("estimatedTime", IntToString(e.estimatedTime)),
            Member("lastUrl", Quote(e.lastUrl)), Member("status", Name(PhaseText(e.status)))]
  }

  /** `{ status: 'error', message }`. */
  function EncodeFatal(message: string): string {
    Object([Member("status", Name("error")), Member("message", Quote(message))])
  }

  /** `{ error }`, the body of a 400 response. */
  function EncodeError(message: string): string {
    Object([Member("error", Quote(message))])
  }

  /** Reads one escape back: the character and how many characters the escape took. */
  function UnescapeOne(t: string): Option<(char, nat)>
    requires t != []
  {
    if t[0] != '\\' then Some((t[0], 1))
    else if |t| < 2 then None
    else if t[1] == '"' then Some(('"', 2))
    else if t[1] == '\\' then Some(('\\', 2))
    else if t[1] == 'b' then Some(('\U{8}', 2))
    else if t[1] == 't' then Some(('\t', 2))
    else if t[1] == 'n' then Some(('\n', 2))
    else if t[1] == 'f' then Some(('\U{C}', 2))
    else if t[1] == 'r' then Some(('\r', 2))
    else if t[1] == 'u' && |t| >= 6 && t[2..4] == "00" && IsHexDigit(t[4]) && IsHexDigit(t[5]) then
      Some(((HexValue(t[4]) * 16 + HexValue(t[5])) as char, 6))
    else None
  }

  predicate IsHexDigit(c: char) {
    IsDigit(c) || 'a' <= c <= 'f'
  }

  function HexValue(c: char): (d: nat)
    requires IsHexDigit(c)
    ensures d < 16
  {
    if IsDigit(c) then DigitValue(c) else c as int - 'a' as int + 10
  }

  /** The characters of a string literal's body, as `JSON.parse` reads them back (for the
      escapes `JSON.stringify` writes). */
  function Unescape(t: string): Option<string>
    decreases |t|
  {
    if t == [] then Some([])
    else match UnescapeOne(t)
      case None => None
      case Some((c, k)) =>
        if k > |t| || k == 0 then None
        else match Unescape(t[k..])
          case None => None
          case Some(rest) => Some([c] + rest)
  }

  /** Plain names need no escape. */
  lemma {:induction false} EscapePlain(k: string)
    requires IsPlainName(k)
    ensures Escape(k) == k
    decreases |k|
  {
    if k != [] {
      assert IsPlainName(k[1..]) by {
        forall i | 0 <= i < |k[1..]| ensures 'a' <= k[1..][i] <= 'z' || 'A' <= k[1..][i] <= 'Z' {
          assert k[1..][i] == k[i + 1];
        }
      }
      EscapePlain(k[1..]);
      assert EscapeChar(k[0]) == [k[0]] by {
        assert 'a' <= k[0] <= 'z' || 'A' <= k[0] <= 'Z';
      }
      assert [k[0]] + k[1..] == k;
    }
  }

  lemma NameIsQuote(k: string)
    requires IsPlainName(k)
    ensures Name(k) == Quote(k)
  {
    EscapePlain(k);
  }

  lemma HexRoundTrip(d: nat)
    requires d < 16
    ensures IsHexDigit(HexDigit(d)) && HexValue(HexDigit(d)) == d
  {
  }

  /** Reading one escape back gives the character and skips exactly its escape. */
  lemma UnescapeOneEscapeChar(c: char, rest: string)
    ensures UnescapeOne(EscapeChar(c) + rest) == Some((c, |EscapeChar(c)|))
  {
    var t := EscapeChar(c) + rest;
    if c < ' ' && c != '\U{8}' && c != '\t' && c != '\n' && c != '\U{C}' && c != '\r' {
      HexRoundTrip(c as int / 16);
      HexRoundTrip(c as int % 16);
      assert t[2..4] == "00";
    }
  }

  /** Escaping is undone by reading the escapes back, so two different strings never
      encode to the same literal. */
  lemma {:induction false} UnescapeEscape(s: string)
    ensures Unescape(Escape(s)) == Some(s)
    decreases |s|
  {
    if s != [] {
      var e := EscapeChar(s[0]);
      var t := Escape(s);
      assert t == e + Escape(s[1..]);
      UnescapeOneEscapeChar(s[0], Escape(s[1..]));
      assert t[|e|..] == Escape(s[1..]);
      UnescapeEscape(s[1..]);
      assert [s[0]] + s[1..] == s;
    }
  }

  lemma EscapeInjective(s1: string, s2: string)
    requires Escape(s1) == Escape(s2)
    ensures s1 == s2
  {
    UnescapeEscape(s1);
    UnescapeEscape(s2);
  }

  /** No escape contains a line feed: a line feed inside a string is written `\n`. */
  lemma {:induction false} EscapeNoNewline(s: string)
    ensures '\n' !in Escape(s)
    decreases |s|
  {
    if s != [] {
      EscapeNoNewline(s[1..]);
      var c := s[0];
      if c < ' ' && c != '\U{8}' && c != '\t' && c != '\n' && c != '\U{C}' && c != '\r' {
        assert HexDigit(c as int / 16) != '\n' && HexDigit(c as int % 16) != '\n';
      }
    }
  }

  lemma {:induction false} JoinNoNewline(parts: seq<string>)
    requires |parts| >= 1 && forall i :: 0 <= i < |parts| ==> '\n' !in parts[i]
    ensures '\n' !in Join(parts, ',')
    decreases |parts|
  {
    if |parts| > 1 {
      JoinNoNewline(parts[1..]);
    }
  }

  lemma NumberNoNewline(i: int)
    ensures '\n' !in IntToString(i)
  {
    IntToStringDigits(i);
    var r := IntToString(i);
    forall k | 0 <= k < |r| ensures r[k] != '\n' {
    }
  }

  lemma ObjectNoNewline(members: seq<string>)
    requires Flat(members)
    ensures '\n' !in Object(members)
  {
    if members != [] {
      JoinNoNewline(members);
    }
  }

  lemma QuoteNoNewline(s: string)
    ensures '\n' !in Quote(s)
  {
    EscapeNoNewline(s);
  }

  /** No member of a list holds a line feed. */
  predicate Flat(members: seq<string>) {
    forall i :: 0 <= i < |members| ==> '\n' !in members[i]
  }

  lemma FlatAppend(a: seq<string>, b: seq<string>)
    requires Flat(a) && Flat(b)
    ensures Flat(a + b)
  {
    forall i | 0 <= i < |a + b| ensures '\n' !in (a + b)[i] {
      if i >= |a| { assert (a + b)[i] == b[i - |a|]; }
    }
  }

  lemma MemberNoNewline(key: string, value: string)
    requires '\n' !in key && '\n' !in value
    ensures '\n' !in Member(key, value)
  {
  }

  lemma OptionalMemberNoNewline(key: string, value: Option<string>)
    requires '\n' !in key
    ensures Flat(OptionalMember(key, value))
  {
    if value.Some? {
      QuoteNoNewline(value.value);
      MemberNoNewline(key, Quote(value.value));
    }
  }

  lemma ResultMembersFlat(r: ScrapeResult)
    ensures Flat(ResultMembers(r))
  {
    QuoteNoNewline(r.url);
    MemberNoNewline("url", Quote(r.url));
    MemberNoNewline("status", Name(StatusText(r.status)));
    var head := [Member("url", Quote(r.url)), Member("status", Name(StatusText(r.status)))];
    OptionalMemberNoNewline("filename", r.filename);
    OptionalMemberNoNewline("localPath", r.localPath);
    OptionalMemberNoNewline("publicPath", r.publicPath);
    OptionalMemberNoNewline("message", r.message);
    OptionalMemberNoNewline("downloadUrl", r.downloadUrl);
    var m1 := head + OptionalMember("filename", r.filename);
    FlatAppend(head, OptionalMember("filename", r.filename));
    var m2 := m1 + OptionalMember("localPath", r.localPath);
    FlatAppend(m1, OptionalMember("localPath", r.localPath));
    var m3 := m2 + OptionalMember("publicPath", r.publicPath);
    FlatAppend(m2, OptionalMember("publicPath", r.publicPath));
    var m4 := m3 + OptionalMember("message", r.message);
    FlatAppend(m3, OptionalMember("message", r.message));
    FlatAppend(m4, OptionalMember("downloadUrl", r.downloadUrl));
  }

  lemma EncodeResultNoNewline(r: ScrapeResult)
    ensures '\n' !in EncodeResult(r)
  {
    ResultMembersFlat(r);
    ObjectNoNewline(ResultMembers(r));
  }

  lemma NumberMemberNoNewline(key: string, i: int)
    requires '\n' !in key
    ensures '\n' !in Member(key, IntToString(i))
  {
    NumberNoNewline(i);
    MemberNoNewline(key, IntToString(i));
  }

  lemma TextMemberNoNewline(key: string, value: string)
    requires '\n' !in key
    ensures '\n' !in Member(key, Quote(value))
  {
    QuoteNoNewline(value);
    MemberNoNewline(key, Quote(value));
  }

  lemma ProgressHeadFlat(e: ProgressUpdate)
    ensures Flat(ProgressHead(e))
  {
    var h := ProgressHead(e);
    NumberMemberNoNewline("current", e.current);
    NumberMemberNoNewline("total", e.total);
    NumberMemberNoNewline("percent", e.percent);
    NumberMemberNoNewline("estimatedTime", e.estimatedTime);
    TextMemberNoNewline("lastUrl", e.lastUrl);
    MemberNoNewline("status", Name(PhaseText(e.status)));
    assert '\n' !in h[0] && '\n' !in h[1] && '\n' !in h[2] && '\n' !in h[3] && '\n' !in h[4] && '\n' !in h[5];
  }

  lemma ProgressMembersFlat(e: ProgressUpdate)
    ensures Flat(ProgressMembers(e))
  {
    ProgressHeadFlat(e);
    if e.result.Some? {
      EncodeResultNoNewline(e.result.value);
      MemberNoNewline("result", EncodeResult(e.result.value));
      FlatAppend(ProgressHead(e), [Member("result", EncodeResult(e.result.value))]);
    }
  }

  /** An encoded event is one line: it holds no line feed, and it is not blank (it starts
      with `{`). */
  lemma EncodeProgressOneLine(e: ProgressUpdate)
    ensures var line := EncodeProgress(e); '\n' !in line && line != [] && line[0] == '{'
  {
    ProgressMembersFlat(e);
    ObjectNoNewline(ProgressMembers(e));
  }

  /** The fatal-error object is one line as well. */
  lemma EncodeFatalOneLine(message: string)
    ensures var line := EncodeFatal(message); '\n' !in line && line != [] && line[0] == '{'
  {
    QuoteNoNewline(message);
    MemberNoNewline("status", Name("error"));
    MemberNoNewline("message", Quote(message));
    ObjectNoNewline([Member("status", Name("error")), Member("message", Quote(message))]);
  }

  lemma EncodeErrorOneLine(message: string)
    ensures var line := EncodeError(message); '\n' !in line && line != [] && line[0] == '{'
  {
    QuoteNoNewline(message);
    MemberNoNewline("error", Quote(message));
    ObjectNoNewline([Member("error", Quote(message))]);
  }
}
