/**
 * Reading back what `JSON.stringify` writes for a progress event: a reader for exactly
 * the texts the encoder in `Json` produces (member order, the escapes, the absent
 * optional properties). It shows that the encoding loses nothing: every event is read
 * back as itself, so two different events never give the same line.
 */
module JsonRead {
  import opened Seqs
  import opened Wrappers
  import opened Text
  import opened Scraper
  import opened Json

  /** The rest of `t` after the literal prefix `p`; `None` when `t` does not start with it. */
  function Expect(p: string, t: string): (r: Option<string>)
    ensures r.Some? <==> |p| <= |t| && t[..|p|] == p
    ensures r.Some? ==> t == p + r.value
  {
    if |p| <= |t| && t[..|p|] == p then Some(t[|p|..]) else None
  }

  /** The length of the run of decimal digits `t` starts with. */
  function DigitRun(t: string): (k: nat)
    ensures k <= |t| && AllDigits(t[..k]) && (k < |t| ==> !IsDigit(t[k]))
  {
    if t == [] || !IsDigit(t[0]) then 0
    else
      var k := DigitRun(t[1..]);
      k + 1
  }

  /** A natural number in decimal and the text after it. */
  function ReadNat(t: string): Option<(nat, string)> {
    var k := DigitRun(t);
    if k == 0 then None else Some((ParseDecimal(t[..k]), t[k..]))
  }

  /** An integer, with a leading minus sign when negative, and the text after it. */
  function ReadInt(t: string): Option<(int, string)> {
    if t != [] && t[0] == '-' then
      var n :- ReadNat(t[1..]);
      var v: int := -(n.0 as int);
      Some((v, n.1))
    else
      var n :- ReadNat(t);
      Some((n.0, n.1))
  }

  /** The body of a string literal up to its closing quote, unescaped, and the text after
      the quote. */
  function ReadChars(t: string): Option<(string, string)>
    decreases |t|
  {
    if t == [] then None
    else if t[0] == '"' then Some(([], t[1..]))
    else
      var one :- UnescapeOne(t);
      if one.1 == 0 || one.1 > |t| then None
      else
        var more :- ReadChars(t[one.1..]);
        Some(([one.0] + more.0, more.1))
  }

  /** A string literal and the text after it. */
  function ReadString(t: string): Option<(string, string)> {
    var body :- Expect("\"", t);
    ReadChars(body)
  }

  /** A member `lead"key":` followed by a number. */
  function ReadNumberMember(lead: string, key: string, t: string): Option<(int, string)> {
    var value :- Expect(lead + Name(key) + ":", t);
    ReadInt(value)
  }

  /** A member `lead"key":` followed by a string literal. */
  function ReadTextMember(lead: string, key: string, t: string): Option<(string, string)> {
    var value :- Expect(lead + Name(key) + ":", t);
    ReadString(value)
  }

  /** An optional string member: absent when the text does not go on with its key. */
  function ReadOptional(key: string, t: string): Option<(Option<string>, string)> {
    if Expect("," + Name(key) + ":", t).None? then Some((None, t))
    else
      var v :- ReadTextMember(",", key, t);
      Some((Some(v.0), v.1))
  }

  function StatusOf(name: string): Option<Status> {
    if name == "success" then Some(Success) else if name == "error" then Some(Error) else None
  }

  function PhaseOf(name: string): Option<Phase> {
    if name == "processing" then Some(Processing) else if name == "completed" then Some(Completed) else None
  }

  /** A result object and the text after it. */
  function ReadResult(t: string): Option<(ScrapeResult, string)> {
    var url :- ReadTextMember("{", "url", t);
    var status :- ReadTextMember(",", "status", url.1);
    var st :- StatusOf(status.0);
    ReadResultRest(url.0, st, status.1)
  }

  /** The optional members of a result, in the order the capture adds them, and the
      closing brace. */
  function ReadResultRest(url: string, status: Status, t: string): Option<(ScrapeResult, string)> {
    var filename :- ReadOptional("filename", t);
    var localPath :- ReadOptional("localPath", filename.1);
    var publicPath :- ReadOptional("publicPath", localPath.1);
    var message :- ReadOptional("message", publicPath.1);
    var downloadUrl :- ReadOptional("downloadUrl", message.1);
    var rest :- Expect("}", downloadUrl.1);
    Some((ScrapeResult(url, status, filename.0, localPath.0, publicPath.0, message.0, downloadUrl.0), rest))
  }

  /** The optional `result` member of an event. */
  function ReadOptionalResult(t: string): Option<(Option<ScrapeResult>, string)> {
    match Expect("," + Name("result") + ":", t)
    case None => Some((None, t))
    case Some(value) =>
      var r :- ReadResult(value);
      Some((Some(r.0), r.1))
  }

  /** A whole line holding one progress event. */
  function DecodeProgress(t: string): Option<ProgressUpdate> {
    var counts :- ReadCounts(t);
    var (current, total, percent, estimate, after) := counts;
    var rest :- ReadProgressRest(after);
    var (lastUrl, phase, result, end) := rest;
    if end != [] || current < 0 || total < 0 then None
    else Some(ProgressUpdate(current, total, percent, estimate, lastUrl, phase, result))
  }

  /** The four numbers an event starts with. */
  function ReadCounts(t: string): Option<(int, int, int, int, string)> {
    var current :- ReadNumberMember("{", "current", t);
    var total :- ReadNumberMember(",", "total", current.1);
    var percent :- ReadNumberMember(",", "percent", total.1);
    var estimate :- ReadNumberMember(",", "estimatedTime", percent.1);
    Some((current.0, total.0, percent.0, estimate.0, estimate.1))
  }

  /** The last link, the phase, the optional result and the closing brace. */
  function ReadProgressRest(t: string): Option<(string, Phase, Option<ScrapeResult>, string)> {
    var lastUrl :- ReadTextMember(",", "lastUrl", t);
    var status :- ReadTextMember(",", "status", lastUrl.1);
    var phase :- PhaseOf(status.0);
    var result :- ReadOptionalResult(status.1);
    var rest :- Expect("}", result.1);
    Some((lastUrl.0, phase, result.0, rest))
  }

  /** The text of an object from its second member on, followed by `tail`. */
  function Closed(members: seq<string>, tail: string): string
    decreases |members|
  {
    if members == [] then "}" + tail else "," + members[0] + Closed(members[1..], tail)
  }

  // Round trips, piece by piece.

  lemma ExpectConcat(p: string, rest: string)
    ensures Expect(p, p + rest) == Some(rest)
  {
    assert (p + rest)[..|p|] == p;
  }

  lemma {:induction false} DigitRunOf(d: string, rest: string)
    requires AllDigits(d) && (rest == [] || !IsDigit(rest[0]))
    ensures DigitRun(d + rest) == |d|
    decreases |d|
  {
    if d == [] {
      assert d + rest == rest;
    } else {
      assert (d + rest)[1..] == d[1..] + rest;
      DigitRunOf(d[1..], rest);
    }
  }

  lemma ReadNatOf(n: nat, rest: string)
    requires rest == [] || !IsDigit(rest[0])
    ensures ReadNat(NatToString(n) + rest) == Some((n, rest))
  {
    var d := NatToString(n);
    ParseNatToString(n);
    DigitRunOf(d, rest);
    assert (d + rest)[..|d|] == d && (d + rest)[|d|..] == rest;
  }

  /** A number is read back from its decimal text when a non-digit follows it. */
  lemma ReadIntOf(i: int, rest: string)
    requires rest == [] || !IsDigit(rest[0])
    ensures ReadInt(IntToString(i) + rest) == Some((i, rest))
  {
    var t := IntToString(i) + rest;
    if i < 0 {
      var d := NatToString(-i);
      assert t == "-" + (d + rest) by {
        Assoc("-", d, rest);
      }
      assert t[1..] == d + rest;
      ReadNatOf(-i, rest);
      var n := ReadNat(t[1..]).value;
      assert n == (-i, rest);
    } else {
      var d := NatToString(i);
      NatToStringLead(i);
      assert t[0] == d[0];
      ReadNatOf(i, rest);
    }
  }

  /** The escaped body of a literal is read back up to the closing quote. */
  lemma {:induction false} ReadCharsOf(s: string, rest: string)
    ensures ReadChars(Escape(s) + "\"" + rest) == Some((s, rest))
    decreases |s|
  {
    var t := Escape(s) + "\"" + rest;
    if s == [] {
      assert t == "\"" + rest;
    } else {
      var e := EscapeChar(s[0]);
      var more := Escape(s[1..]) + "\"" + rest;
      assert t == e + more by {
        assert Escape(s) == e + Escape(s[1..]);
        Assoc(e, Escape(s[1..]), "\"");
        Assoc(e + Escape(s[1..]), "\"", rest);
        Assoc(e, Escape(s[1..]) + "\"", rest);
      }
      UnescapeOneEscapeChar(s[0], more);
      assert t[0] != '"';
      assert t[|e|..] == more;
      ReadCharsOf(s[1..], rest);
      assert [s[0]] + s[1..] == s;
    }
  }

  lemma ReadStringOf(s: string, rest: string)
    ensures ReadString(Quote(s) + rest) == Some((s, rest))
  {
    var body := Escape(s) + "\"" + rest;
    assert Quote(s) + rest == "\"" + body by {
      Assoc("\"" + Escape(s), "\"", rest);
      Assoc("\"", Escape(s), "\"" + rest);
      Assoc(Escape(s), "\"", rest);
    }
    ExpectConcat("\"", body);
    ReadCharsOf(s, rest);
  }

  lemma ExpectMember(lead: string, key: string, value: string, rest: string)
    ensures Expect(lead + Name(key) + ":", lead + Member(key, value) + rest) == Some(value + rest)
  {
    var p := lead + Name(key) + ":";
    assert lead + Member(key, value) + rest == p + (value + rest) by {
      Assoc(lead, Name(key) + ":", value);
      Assoc(lead, Name(key), ":");
      Assoc(p, value, rest);
    }
    ExpectConcat(p, value + rest);
  }

  lemma ReadNumberMemberOf(lead: string, key: string, i: int, rest: string)
    requires rest == [] || !IsDigit(rest[0])
    ensures ReadNumberMember(lead, key, lead + Member(key, IntToString(i)) + rest) == Some((i, rest))
  {
    ExpectMember(lead, key, IntToString(i), rest);
    ReadIntOf(i, rest);
  }

  lemma ReadTextMemberOf(lead: string, key: string, s: string, rest: string)
    ensures ReadTextMember(lead, key, lead + Member(key, Quote(s)) + rest) == Some((s, rest))
  {
    ExpectMember(lead, key, Quote(s), rest);
    ReadStringOf(s, rest);
  }

  lemma {:induction false} JoinClosed(members: seq<string>, tail: string)
    requires |members| >= 1
    ensures Join(members, ',') + "}" + tail == members[0] + Closed(members[1..], tail)
    decreases |members|
  {
    if |members| > 1 {
      var rest := members[1..];
      JoinClosed(rest, tail);
      assert rest[1..] == members[2..];
      var j := Join(rest, ',');
      calc {
        Join(members, ',') + "}" + tail;
        members[0] + [','] + j + "}" + tail;
        { Assoc(members[0] + [','] + j, "}", tail);
          Assoc(members[0] + [','], j, "}" + tail);
          Assoc(j, "}", tail); }
        members[0] + [','] + (j + "}" + tail);
        members[0] + [','] + (rest[0] + Closed(rest[1..], tail));
        { Assoc(members[0], [','], rest[0] + Closed(rest[1..], tail));
          Assoc([','], rest[0], Closed(rest[1..], tail)); }
        members[0] + ([','] + rest[0] + Closed(rest[1..], tail));
      }
    }
  }

  /** An object followed by `tail`: the opening brace, the first member, and the rest. */
  lemma ObjectClosed(members: seq<string>, tail: string)
    requires |members| >= 1
    ensures Object(members) + tail == "{" + members[0] + Closed(members[1..], tail)
  {
    JoinClosed(members, tail);
    var j := Join(members, ',');
    Assoc("{" + j, "}", tail);
    Assoc("{", j, "}" + tail);
    Assoc(j, "}", tail);
    Assoc("{", members[0], Closed(members[1..], tail));
  }

  lemma ClosedCons(m: string, members: seq<string>, tail: string)
    ensures Closed([m] + members, tail) == "," + m + Closed(members, tail)
  {
    assert ([m] + members)[1..] == members;
  }

  /** The next member's key starts with one of `initials` (or the object closes). */
  predicate NextKeyIn(members: seq<string>, initials: set<char>) {
    members == [] || (|members[0]| >= 2 && members[0][1] in initials)
  }

  lemma OptionalNextKey(key: string, value: Option<string>, members: seq<string>, before: set<char>,
                        initials: set<char>)
    requires key != [] && key[0] in initials && before <= initials && NextKeyIn(members, before)
    ensures NextKeyIn(OptionalMember(key, value) + members, initials)
  {
    if value.None? {
      assert OptionalMember(key, value) + members == members;
    }
  }

  /** An optional member is read back as present or absent when the key of the member
      after it (if any) starts differently. */
  lemma ReadOptionalOf(key: string, value: Option<string>, members: seq<string>, initials: set<char>, tail: string)
    requires key != [] && key[0] !in initials && NextKeyIn(members, initials)
    ensures ReadOptional(key, Closed(OptionalMember(key, value) + members, tail)) == Some((value, Closed(members, tail)))
  {
    var p := "," + Name(key) + ":";
    if value.None? {
      assert OptionalMember(key, value) + members == members;
      var t := Closed(members, tail);
      if members != [] {
        assert t[2] == members[0][1];
        assert p[2] == key[0];
      } else {
        assert t[0] == '}';
      }
      assert Expect(p, t).None?;
    } else {
      ClosedCons(Member(key, Quote(value.value)), members, tail);
      ExpectMember(",", key, Quote(value.value), Closed(members, tail));
      ReadTextMemberOf(",", key, value.value, Closed(members, tail));
    }
  }

  lemma ClosedLead(members: seq<string>, tail: string)
    ensures Closed(members, tail) != [] && !IsDigit(Closed(members, tail)[0])
  {
  }

  lemma StatusNames(st: Status)
    ensures Name(StatusText(st)) == Quote(StatusText(st)) && StatusOf(StatusText(st)) == Some(st)
  {
    NameIsQuote(StatusText(st));
  }

  lemma PhaseNames(p: Phase)
    ensures Name(PhaseText(p)) == Quote(PhaseText(p)) && PhaseOf(PhaseText(p)) == Some(p)
  {
    NameIsQuote(PhaseText(p));
  }

  /** A result's optional members, grouped from the right. */
  lemma ResultMembersSplit(r: ScrapeResult)
    ensures ResultMembers(r)
      == [Member("url", Quote(r.url))] + ([Member("status", Name(StatusText(r.status)))]
           + (OptionalMember("filename", r.filename) + (OptionalMember("localPath", r.localPath)
           + (OptionalMember("publicPath", r.publicPath) + (OptionalMember("message", r.message)
           + OptionalMember("downloadUrl", r.downloadUrl))))))
  {
    var a := [Member("url", Quote(r.url)), Member("status", Name(StatusText(r.status)))];
    var o1, o2, o3 := OptionalMember("filename", r.filename), OptionalMember("localPath", r.localPath),
                      OptionalMember("publicPath", r.publicPath);
    var o4, o5 := OptionalMember("message", r.message), OptionalMember("downloadUrl", r.downloadUrl);
    Assoc(a + o1 + o2 + o3, o4, o5);
    Assoc(a + o1 + o2, o3, o4 + o5);
    Assoc(a + o1, o2, o3 + (o4 + o5));
    Assoc(a, o1, o2 + (o3 + (o4 + o5)));
    assert a == [a[0]] + ([a[1]] + []);
    Assoc([a[0]], [a[1]], o1 + (o2 + (o3 + (o4 + o5))));
  }

  /** The optional members of a result and the closing brace are read back. */
  lemma ReadResultRestOf(r: ScrapeResult, tail: string)
    ensures var o5 := OptionalMember("downloadUrl", r.downloadUrl);
      var o45 := OptionalMember("message", r.message) + o5;
      var o345 := OptionalMember("publicPath", r.publicPath) + o45;
      var o2345 := OptionalMember("localPath", r.localPath) + o345;
      ReadResultRest(r.url, r.status, Closed(OptionalMember("filename", r.filename) + o2345, tail)) == Some((r, tail))
  {
    var o5 := OptionalMember("downloadUrl", r.downloadUrl);
    var o45 := OptionalMember("message", r.message) + o5;
    var o345 := OptionalMember("publicPath", r.publicPath) + o45;
    var o2345 := OptionalMember("localPath", r.localPath) + o345;
    assert o5 + [] == o5;
    OptionalNextKey("downloadUrl", r.downloadUrl, [], {}, {'d'});
    OptionalNextKey("message", r.message, o5, {'d'}, {'m', 'd'});
    OptionalNextKey("publicPath", r.publicPath, o45, {'m', 'd'}, {'p', 'm', 'd'});
    OptionalNextKey("localPath", r.localPath, o345, {'p', 'm', 'd'}, {'l', 'p', 'm', 'd'});
    ReadOptionalOf("filename", r.filename, o2345, {'l', 'p', 'm', 'd'}, tail);
    ReadOptionalOf("localPath", r.localPath, o345, {'p', 'm', 'd'}, tail);
    ReadOptionalOf("publicPath", r.publicPath, o45, {'m', 'd'}, tail);
    ReadOptionalOf("message", r.message, o5, {'d'}, tail);
    ReadOptionalOf("downloadUrl", r.downloadUrl, [], {}, tail);
    ExpectConcat("}", tail);
  }

  /** A result is read back from its encoding, whatever text follows it. */
  lemma ReadResultOf(r: ScrapeResult, tail: string)
    ensures ReadResult(EncodeResult(r) + tail) == Some((r, tail))
  {
    var url := Member("url", Quote(r.url));
    var status := Member("status", Name(StatusText(r.status)));
    var o5 := OptionalMember("downloadUrl", r.downloadUrl);
    var o45 := OptionalMember("message", r.message) + o5;
    var o345 := OptionalMember("publicPath", r.publicPath) + o45;
    var o2345 := OptionalMember("localPath", r.localPath) + o345;
    var o12345 := OptionalMember("filename", r.filename) + o2345;
    ResultMembersSplit(r);
    var ms := ResultMembers(r);
    ObjectClosed(ms, tail);
    assert ms[0] == url && ms[1..] == [status] + o12345;
    ClosedCons(status, o12345, tail);
    Assoc("{", url, Closed(ms[1..], tail));
    ReadTextMemberOf("{", "url", r.url, Closed(ms[1..], tail));
    StatusNames(r.status);
    ReadTextMemberOf(",", "status", StatusText(r.status), Closed(o12345, tail));
    ReadResultRestOf(r, tail);
  }

  lemma ReadOptionalResultOf(result: Option<ScrapeResult>, tail: string)
    ensures ReadOptionalResult(Closed(if result.Some? then [Member("result", EncodeResult(result.value))] else [], tail))
      == Some((result, "}" + tail))
  {
    var p := "," + Name("result") + ":";
    if result.None? {
      assert Expect(p, "}" + tail).None? by {
        assert ("}" + tail)[0] == '}';
      }
    } else {
      var m := Member("result", EncodeResult(result.value));
      assert Closed([m], tail) == "," + m + ("}" + tail) by {
        ClosedCons(m, [], tail);
      }
      ExpectMember(",", "result", EncodeResult(result.value), "}" + tail);
      ReadResultOf(result.value, "}" + tail);
    }
  }

  lemma ReadCountsOf(e: ProgressUpdate)
    ensures ReadCounts(EncodeProgress(e))
      == Some((e.current as int, e.total as int, e.percent, e.estimatedTime, Closed(ProgressMembers(e)[4..], "")))
  {
    var ms := ProgressMembers(e);
    ObjectClosed(ms, "");
    assert EncodeProgress(e) + "" == EncodeProgress(e);
    Assoc("{", ms[0], Closed(ms[1..], ""));
    ClosedAt(ms, 0, "");
    ReadNumberMemberOf("{", "current", e.current, Closed(ms[1..], ""));
    ClosedAt(ms, 1, "");
    ReadNumberMemberOf(",", "total", e.total, Closed(ms[2..], ""));
    ClosedAt(ms, 2, "");
    ReadNumberMemberOf(",", "percent", e.percent, Closed(ms[3..], ""));
    ClosedAt(ms, 3, "");
    ReadNumberMemberOf(",", "estimatedTime", e.estimatedTime, Closed(ms[4..], ""));
  }

  lemma ReadProgressRestOf(e: ProgressUpdate)
    ensures ReadProgressRest(Closed(ProgressMembers(e)[4..], "")) == Some((e.lastUrl, e.status, e.result, ""))
  {
    var ms := ProgressMembers(e);
    ClosedAt(ms, 4, "");
    ReadTextMemberOf(",", "lastUrl", e.lastUrl, Closed(ms[5..], ""));
    ClosedAt(ms, 5, "");
    PhaseNames(e.status);
    ReadTextMemberOf(",", "status", PhaseText(e.status), Closed(ms[6..], ""));
    assert ms[6..] == if e.result.Some? then [Member("result", EncodeResult(e.result.value))] else [];
    ReadOptionalResultOf(e.result, "");
    ExpectConcat("}", "");
  }

  /** Every event is read back as itself from its line. */
  lemma DecodeEncodeProgress(e: ProgressUpdate)
    ensures DecodeProgress(EncodeProgress(e)) == Some(e)
  {
    ReadCountsOf(e);
    ReadProgressRestOf(e);
  }

  lemma ClosedAt(members: seq<string>, i: nat, tail: string)
    requires i < |members|
    ensures Closed(members[i..], tail) == "," + members[i] + Closed(members[i + 1..], tail)
    ensures Closed(members[i + 1..], tail) != [] && !IsDigit(Closed(members[i + 1..], tail)[0])
  {
    assert members[i..][1..] == members[i + 1..];
  }

  /** Two events with the same line are the same event. */
  lemma EncodeProgressInjective(a: ProgressUpdate, b: ProgressUpdate)
    requires EncodeProgress(a) == EncodeProgress(b)
    ensures a == b
  {
    DecodeEncodeProgress(a);
    DecodeEncodeProgress(b);
  }
}
