/** TXT strings in a DoH JSON answer (dnsid/_default_resolver.py:273-286): double-quoted strings with
    backslash escapes, in the style of section 5.1 of RFC 1035, found by a pattern and unescaped by two
    replacements. */
module DohText {
  import opened Options

  // ---- The pattern ----

  /** The length of the quoted body that starts here, if its closing quote is reached: a body is made of
      characters other than quote and backslash, and of backslashes with the character after them, which
      is not a line feed.  The alternatives exclude each other, so the match is unique. */
  function Scan(s: string): (n: Option<nat>)
    ensures n.Some? ==> n.value < |s| && s[n.value] == '"'
  {
    if s == [] then None
    else if s[0] == '"' then Some(0)
    else if s[0] != '\\' then
      var rest := Scan(s[1..]);
      if rest.Some? then Some(1 + rest.value) else None
    else if |s| == 1 || s[1] == '\n' then None
    else
      var rest := Scan(s[2..]);
      if rest.Some? then Some(2 + rest.value) else None
  }

  /** The bodies of all matches, leftmost first, each search going on after the last match. */
  function FindAll(s: string): seq<string>
    decreases |s|
  {
    if s == [] then []
    else if s[0] == '"' && Scan(s[1..]).Some? then
      var n := Scan(s[1..]).value;
      [s[1..][..n]] + FindAll(s[n + 2..])
    else FindAll(s[1..])
  }

  // ---- Unescaping ----

  /** `s.replace(a + b, r)` for a pattern of two characters and one character in its place. */
  function Replace(s: string, a: char, b: char, r: char): string {
    if |s| < 2 then s
    else if s[0] == a && s[1] == b then [r] + Replace(s[2..], a, b, r)
    else [s[0]] + Replace(s[1..], a, b, r)
  }

  function TwoPass(body: string): string {
    Replace(Replace(body, '\\', '"', '"'), '\\', '\\', '\\')
  }

  /** One pass from the left: an escaped quote or backslash stands for itself, any other escape stays. */
  function Unescape(body: string): string {
    if |body| < 2 then body
    else if body[0] != '\\' then [body[0]] + Unescape(body[1..])
    else (if body[1] == '"' || body[1] == '\\' then [body[1]] else body[..2]) + Unescape(body[2..])
  }

  function MapTwoPass(bodies: seq<string>): seq<string> {
    seq(|bodies|, i requires 0 <= i < |bodies| => TwoPass(bodies[i]))
  }

  /** `_parse_doh_txt_strings`. */
  function ParseStrings(data: string): seq<string> {
    if FindAll(data) != [] then MapTwoPass(FindAll(data)) else [data]
  }

  // ---- What the pattern accepts ----

  predicate BodyOk(s: string) {
    s == [] ||
    if s[0] == '"' then false
    else if s[0] != '\\' then BodyOk(s[1..])
    else |s| > 1 && s[1] != '\n' && BodyOk(s[2..])
  }

  lemma {:induction false} ScanFindsBody(s: string)
    requires Scan(s).Some?
    ensures BodyOk(s[..Scan(s).value])
  {
    var n := Scan(s).value;
    if s[0] != '"' {
      var k := if s[0] != '\\' then 1 else 2;
      ScanFindsBody(s[k..]);
      assert s[..n][k..] == s[k..][..n - k];
    }
  }

  lemma {:induction false} BodyIsScanned(body: string, rest: string)
    requires BodyOk(body)
    ensures Scan(body + "\"" + rest) == Some(|body|)
  {
    var s := body + "\"" + rest;
    if body != [] {
      var k := if body[0] != '\\' then 1 else 2;
      assert s[k..] == body[k..] + "\"" + rest;
      BodyIsScanned(body[k..], rest);
    }
  }

  // ---- Two passes are one ----

  /** On every accepted body the two replacements are the single pass: a quote in a body always follows
      its own backslash, so the first replacement never takes half of an escaped backslash. */
  lemma {:induction false} TwoPassesAreOne(body: string)
    requires BodyOk(body)
    ensures TwoPass(body) == Unescape(body)
  {
    if |body| >= 2 {
      if body[0] != '\\' {
        var rest := Replace(body[1..], '\\', '"', '"');
        TwoPassesAreOne(body[1..]);
        PlainFirst(body[0], rest);
      } else {
        var rest := Replace(body[2..], '\\', '"', '"');
        TwoPassesAreOne(body[2..]);
        if body[1] == '"' {
          PlainFirst('"', rest);
        } else {
          EscapeThroughFirstPass(body);
          EscapeThroughSecondPass(body[1], rest);
          assert body[..2] == ['\\', body[1]];
        }
      }
    }
  }

  lemma {:induction false} PlainFirst(c: char, rest: string)
    requires c != '\\'
    ensures Replace([c] + rest, '\\', '\\', '\\') == [c] + Replace(rest, '\\', '\\', '\\')
  {
  }

  lemma {:induction false} EscapeThroughFirstPass(body: string)
    requires |body| >= 2 && body[0] == '\\' && body[1] != '"' && BodyOk(body[2..])
    ensures Replace(body, '\\', '"', '"') == body[..2] + Replace(body[2..], '\\', '"', '"')
  {
  }

  lemma {:induction false} EscapeThroughSecondPass(c: char, rest: string)
    ensures Replace(['\\', c] + rest, '\\', '\\', '\\') ==
            (if c == '\\' then ['\\'] else ['\\', c]) + Replace(rest, '\\', '\\', '\\')
  {
  }

  // ---- Escaping and quoting ----

  function Escape(s: string): string {
    if s == [] then []
    else (if s[0] == '"' || s[0] == '\\' then ['\\', s[0]] else [s[0]]) + Escape(s[1..])
  }

  lemma {:induction false} EscapeIsAccepted(s: string)
    ensures BodyOk(Escape(s)) && Unescape(Escape(s)) == s
  {
    if s != [] {
      EscapeIsAccepted(s[1..]);
      var rest := Escape(s[1..]);
      assert s == [s[0]] + s[1..];
      if s[0] == '"' || s[0] == '\\' {
        assert (['\\', s[0]] + rest)[2..] == rest;
      } else {
        assert ([s[0]] + rest)[1..] == rest;
      }
    }
  }

  function Quote(s: string): string {
    "\"" + Escape(s) + "\""
  }

  /** Quoted strings, each after some text without a quote, and such text at the end. */
  function Layout(strings: seq<string>, gaps: seq<string>, tail: string): string
    requires |gaps| == |strings|
  {
    if strings == [] then tail else gaps[0] + Quote(strings[0]) + Layout(strings[1..], gaps[1..], tail)
  }

  lemma {:induction false} SkipGap(gap: string, rest: string)
    requires '"' !in gap
    ensures FindAll(gap + rest) == FindAll(rest)
  {
    if gap == [] {
      assert gap + rest == rest;
    } else {
      assert gap[0] in gap && (gap + rest)[1..] == gap[1..] + rest;
      SkipGap(gap[1..], rest);
    }
  }

  lemma FindQuoted(s: string, rest: string)
    ensures FindAll(Quote(s) + rest) == [Escape(s)] + FindAll(rest)
  {
    var all := Quote(s) + rest;
    var body := Escape(s);
    EscapeIsAccepted(s);
    BodyIsScanned(body, rest);
    assert all[1..] == body + "\"" + rest;
    assert all[1..][..|body|] == body && all[|body| + 2..] == rest;
  }

  function MapEscape(strings: seq<string>): seq<string> {
    seq(|strings|, i requires 0 <= i < |strings| => Escape(strings[i]))
  }

  lemma {:induction false} FindLayout(strings: seq<string>, gaps: seq<string>, tail: string)
    requires |gaps| == |strings| && '"' !in tail && forall i | 0 <= i < |gaps| :: '"' !in gaps[i]
    ensures FindAll(Layout(strings, gaps, tail)) == MapEscape(strings)
  {
    hide Escape, Quote;
    if strings == [] {
      assert tail + "" == tail;
      SkipGap(tail, "");
    } else {
      var rest := Layout(strings[1..], gaps[1..], tail);
      FindLayout(strings[1..], gaps[1..], tail);
      assert Layout(strings, gaps, tail) == gaps[0] + (Quote(strings[0]) + rest);
      SkipGap(gaps[0], Quote(strings[0]) + rest);
      FindQuoted(strings[0], rest);
      assert MapEscape(strings) == [Escape(strings[0])] + MapEscape(strings[1..]);
    }
  }

  /** Quoting and escaping any non-empty list of strings, with any text free of quotes around them, and
      parsing the result gives the list back. */
  lemma QuotedListParsesBack(strings: seq<string>, gaps: seq<string>, tail: string)
    requires strings != [] && |gaps| == |strings| && '"' !in tail && forall i | 0 <= i < |gaps| :: '"' !in gaps[i]
    ensures ParseStrings(Layout(strings, gaps, tail)) == strings
  {
    hide Escape, TwoPass, Layout, FindAll, Unescape;
    FindLayout(strings, gaps, tail);
    forall i | 0 <= i < |strings|
      ensures TwoPass(Escape(strings[i])) == strings[i]
    {
      EscapeIsAccepted(strings[i]);
      TwoPassesAreOne(Escape(strings[i]));
    }
  }

  lemma {:induction false} FoundBodiesOk(s: string)
    ensures forall i | 0 <= i < |FindAll(s)| :: BodyOk(FindAll(s)[i])
    decreases |s|
  {
    if s != [] {
      if s[0] == '"' && Scan(s[1..]).Some? {
        ScanFindsBody(s[1..]);
        FoundBodiesOk(s[Scan(s[1..]).value + 2..]);
      } else {
        FoundBodiesOk(s[1..]);
      }
    }
  }

  /** On any text at all, what is parsed is the single-pass reading of the quoted bodies, or the text as it
      stands when it holds none. */
  lemma ParseReadsBodiesOnce(data: string)
    ensures |ParseStrings(data)| == if FindAll(data) == [] then 1 else |FindAll(data)|
    ensures FindAll(data) == [] ==> ParseStrings(data) == [data]
    ensures forall i | 0 <= i < |FindAll(data)| :: ParseStrings(data)[i] == Unescape(FindAll(data)[i])
  {
    hide TwoPass, FindAll, Unescape;
    FoundBodiesOk(data);
    forall i | 0 <= i < |FindAll(data)|
      ensures TwoPass(FindAll(data)[i]) == Unescape(FindAll(data)[i])
    {
      TwoPassesAreOne(FindAll(data)[i]);
    }
  }

  // ---- The pattern, by its units ----

  /** One unit of a body: a character other than quote and backslash, or a backslash and any character but a
      line feed. */
  predicate Unit(u: string) {
    || (|u| == 1 && u[0] != '"' && u[0] != '\\')
    || (|u| == 2 && u[0] == '\\' && u[1] as int != 10)
  }

  function Concat(units: seq<string>): string {
    if units == [] then "" else units[0] + Concat(units[1..])
  }

  /** A body is accepted exactly when it is a sequence of units. */
  lemma BodyExactly(s: string)
    ensures BodyOk(s) <==> exists units :: s == Concat(units) && forall u | u in units :: Unit(u)
  {
    if BodyOk(s) {
      var units := UnitsOf(s);
    }
    if units :| s == Concat(units) && forall u | u in units :: Unit(u) {
      UnitsAreOk(units);
    }
  }

  lemma {:induction false} UnitsOf(s: string) returns (units: seq<string>)
    requires BodyOk(s)
    ensures s == Concat(units) && forall u | u in units :: Unit(u)
  {
    units := [];
    if s != [] {
      var k := if s[0] != '\\' then 1 else 2;
      var rest := UnitsOf(s[k..]);
      units := [s[..k]] + rest;
      assert units[1..] == rest && s == s[..k] + s[k..];
    }
  }

  lemma {:induction false} UnitsAreOk(units: seq<string>)
    requires forall u | u in units :: Unit(u)
    ensures BodyOk(Concat(units))
  {
    if units != [] {
      var u, rest := units[0], Concat(units[1..]);
      assert u in units && forall v | v in units[1..] :: v in units;
      UnitsAreOk(units[1..]);
      assert (u + rest)[|u|..] == rest;
    }
  }

  /** The pattern matches from quote `i` to quote `j`. */
  predicate Matches(s: string, i: nat, j: nat) {
    i < j < |s| && s[i] == '"' && s[j] == '"' && BodyOk(s[i + 1..j])
  }

  lemma MatchIsScanned(s: string, i: nat, j: nat)
    requires i < j && i < |s| && s[i] == '"'
    ensures Matches(s, i, j) <==> Scan(s[i + 1..]) == Some(j - i - 1)
  {
    var t := s[i + 1..];
    if Matches(s, i, j) {
      var body, rest := s[i + 1..j], s[j + 1..];
      assert t == body + "\"" + rest;
      BodyIsScanned(body, rest);
    }
    if Scan(t) == Some(j - i - 1) {
      ScanFindsBody(t);
      assert t[..j - i - 1] == s[i + 1..j];
    }
  }

  /** All matches, leftmost first: with a match whose opening quote no other match precedes, its body comes
      first and the search goes on after it; without any match nothing is found, whatever quotes there are. */
  lemma FindsTheLeftmost(s: string, i: nat, j: nat)
    requires Matches(s, i, j) && forall h: nat, k: nat | h < i :: !Matches(s, h, k)
    ensures FindAll(s) == [s[i + 1..j]] + FindAll(s[j + 1..])
  {
    hide FindAll, Scan, BodyOk;
    FindSkips(s, i);
    MatchIsScanned(s, i, j);
    assert s[i..][1..] == s[i + 1..];
    FindHere(s[i..], j - i - 1);
    assert s[i + 1..][..j - i - 1] == s[i + 1..j] && s[i..][j - i + 1..] == s[j + 1..];
  }

  lemma FindHere(s: string, n: nat)
    requires s != [] && s[0] == '"' && Scan(s[1..]) == Some(n)
    ensures FindAll(s) == [s[1..][..n]] + FindAll(s[n + 2..])
  {
    hide Scan;
  }

  lemma FindsNothingWithout(s: string)
    requires forall i: nat, j: nat :: !Matches(s, i, j)
    ensures FindAll(s) == []
  {
    FindSkips(s, |s|);
    assert s[|s|..] == [];
  }

  lemma {:induction false} FindSkips(s: string, n: nat)
    requires n <= |s| && forall h: nat, k: nat | h < n :: !Matches(s, h, k)
    ensures FindAll(s) == FindAll(s[n..])
  {
    if n == 0 {
      assert s[0..] == s;
    } else {
      FindSkips(s, n - 1);
      var t := s[n - 1..];
      assert t[1..] == s[n..] && t[0] == s[n - 1];
      if t[0] == '"' && Scan(t[1..]).Some? {
        var j := n + Scan(t[1..]).value;
        MatchIsScanned(s, n - 1, j);
        assert false;
      }
    }
  }
}
