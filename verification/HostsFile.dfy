/**
 The hosts file that pins domains to verified addresses: reading it, writing it, and merging
 freshly audited records into it. What counts as an address is a parameter, `isIp`.
 */
module HostsFile {
  import opened Wrappers
  import opened Text

  type Pins = map<string, string>

  datatype Pin = Pin(domain: string, ip: string)

  /** The addresses of one audited domain, with or without the time of the audit. */
  datatype Record = Plain(ips: seq<string>) | Stamped(ips: seq<string>, checkedAt: string)

  // ---------- lines and words ----------

  /** The characters that end a line. */
  predicate Break(c: char) {
    '\n' <= c <= '\r' || '\U{1C}' <= c <= '\U{1E}' || c == '\U{85}' || '\U{2028}' <= c <= '\U{2029}'
  }

  predicate Space(c: char) {
    || Break(c) || c == '\t' || c == ' ' || c == '\U{1F}' || c == '\U{A0}' || c == '\U{1680}'
    || '\U{2000}' <= c <= '\U{200A}' || c == '\U{202F}' || c == '\U{205F}' || c == '\U{3000}'
  }

  const BREAKS := "\n\U{B}\U{C}\r\U{1C}\U{1D}\U{1E}\U{85}\U{2028}\U{2029}"
  const OTHER_SPACES := "\t \U{1F}\U{A0}\U{1680}\U{2000}\U{2001}\U{2002}\U{2003}\U{2004}\U{2005}\U{2006}\U{2007}"
                        + "\U{2008}\U{2009}\U{200A}\U{202F}\U{205F}\U{3000}"

  /** The two classes, character by character. */
  lemma ClassesAre(c: char)
    ensures Break(c) <==> c in BREAKS
    ensures Space(c) <==> c in BREAKS || c in OTHER_SPACES
  {
  }

  predicate OneLine(s: string) {
    forall i :: 0 <= i < |s| ==> !Break(s[i])
  }

  /** A word: not empty, and free of white space. */
  predicate Word(s: string) {
    s != "" && forall i :: 0 <= i < |s| ==> !Space(s[i])
  }

  /** Where the first character satisfying `p` is, or the length of `s`. */
  function First(s: string, p: char -> bool): (k: nat)
    ensures k <= |s| && (forall i :: 0 <= i < k ==> !p(s[i])) && (k < |s| ==> p(s[k]))
  {
    if s == "" || p(s[0]) then 0 else 1 + First(s[1..], p)
  }

  function Lines(text: string): (r: seq<string>) {
    var k := First(text, Break);
    if text == "" then []
    else if k == |text| then [text]
    else [text[..k]] + Lines(text[k + (if text[k] == '\r' && k + 1 < |text| && text[k + 1] == '\n' then 2 else 1)..])
  }

  function Words(s: string): (r: seq<string>)
    ensures forall i :: 0 <= i < |r| ==> Word(r[i])
  {
    var k := First(s, Space);
    if s == "" then [] else if k == 0 then Words(s[1..]) else [s[..k]] + Words(s[k..])
  }

  function StripStart(s: string): string {
    if s != "" && Space(s[0]) then StripStart(s[1..]) else s
  }

  function StripEnd(s: string): string {
    if s != "" && Space(s[|s| - 1]) then StripEnd(s[..|s| - 1]) else s
  }

  function Strip(s: string): string {
    StripEnd(StripStart(s))
  }

  function Join(lines: seq<string>): string
    requires lines != []
  {
    if |lines| == 1 then lines[0] else lines[0] + "\n" + Join(lines[1..])
  }

  lemma FirstIs(s: string, p: char -> bool, k: nat)
    requires k <= |s| && (forall i :: 0 <= i < k ==> !p(s[i])) && (k < |s| ==> p(s[k]))
    ensures First(s, p) == k
  {
  }

  lemma LinesStep(line: string, rest: string)
    requires OneLine(line)
    ensures Lines(line + "\n" + rest) == [line] + Lines(rest)
  {
    var text := line + "\n" + rest;
    FirstIs(text, Break, |line|);
    assert text[..|line|] == line && text[|line| + 1..] == rest;
  }

  /** What ends a line: one character, or a carriage return with the line feed behind it. */
  predicate LineEnd(end: string, rest: string) {
    end == "\r\n" || (|end| == 1 && Break(end[0]) && (end == "\r" && rest != "" ==> rest[0] != '\n'))
  }

  /** How any text falls into lines: line by line, and a last one without an end counts if it is not empty. */
  lemma LinesAre(line: string, end: string, rest: string)
    requires OneLine(line) && LineEnd(end, rest)
    ensures Lines(line + end + rest) == [line] + Lines(rest)
    ensures Lines(line) == if line == "" then [] else [line]
  {
    var text := line + end + rest;
    FirstIs(text, Break, |line|);
    assert text[..|line|] == line && text[|line| + |end|..] == rest;
    FirstIs(line, Break, |line|);
  }

  /** How any line falls into words: at each stretch of white space. */
  lemma {:induction false} WordsAre(blank: string, word: string, rest: string)
    requires (forall i :: 0 <= i < |blank| ==> Space(blank[i])) && Word(word) && (rest != "" ==> Space(rest[0]))
    ensures Words(blank + word + rest) == [word] + Words(rest) && Words(blank) == []
  {
    var s := blank + word + rest;
    if blank == "" {
      FirstIs(s, Space, |word|);
      assert s[..|word|] == word && s[|word|..] == rest;
    } else {
      FirstIs(s, Space, 0);
      FirstIs(blank, Space, 0);
      assert s[1..] == blank[1..] + word + rest;
      WordsAre(blank[1..], word, rest);
    }
  }

  lemma {:induction false} StripStartKeepsWords(s: string)
    ensures Words(StripStart(s)) == Words(s) && (StripStart(s) != "" ==> !Space(StripStart(s)[0]))
  {
    if s != "" && Space(s[0]) {
      StripStartKeepsWords(s[1..]);
    }
  }

  /** White space at the end adds no word. */
  lemma {:induction false} SpaceAtEnd(s: string, c: char)
    requires Space(c)
    ensures Words(s + [c]) == Words(s)
    decreases |s|
  {
    var k, t := First(s, Space), s + [c];
    if s == "" {
      assert t == [c] && [c][1..] == "";
    } else {
      FirstIs(t, Space, k);
      if k == 0 {
        assert t[1..] == s[1..] + [c];
        SpaceAtEnd(s[1..], c);
      } else {
        assert t[..k] == s[..k] && t[k..] == s[k..] + [c];
        SpaceAtEnd(s[k..], c);
      }
    }
  }

  lemma {:induction false} StripEndKeepsWords(s: string)
    ensures Words(StripEnd(s)) == Words(s) && (s != "" && !Space(s[0]) ==> StripEnd(s) != "" && StripEnd(s)[0] == s[0])
  {
    if s != "" && Space(s[|s| - 1]) {
      StripEndKeepsWords(s[..|s| - 1]);
      SpaceAtEnd(s[..|s| - 1], s[|s| - 1]);
      assert s == s[..|s| - 1] + [s[|s| - 1]];
    }
  }

  lemma FirstWord(s: string)
    requires s != "" && !Space(s[0])
    ensures Words(s) != [] && Words(s)[0][0] == s[0]
  {
    assert First(s, Space) > 0;
  }

  /** Splitting joined lines gives the lines back. */
  lemma {:induction false} LinesOfJoin(lines: seq<string>)
    requires lines != [] && forall i :: 0 <= i < |lines| ==> OneLine(lines[i])
    ensures Lines(Join(lines) + "\n") == lines
  {
    LinesStep(lines[0], "");
    if |lines| == 1 {
      assert lines[0] + "\n" + "" == Join(lines) + "\n";
      assert Lines("") == [];
    } else {
      LinesStep(lines[0], Join(lines[1..]) + "\n");
      assert lines[0] + "\n" + (Join(lines[1..]) + "\n") == Join(lines) + "\n";
      LinesOfJoin(lines[1..]);
    }
  }

  lemma OneWord(s: string)
    requires Word(s)
    ensures Words(s) == [s]
  {
    FirstIs(s, Space, |s|);
    assert s[..|s|] == s && s[|s|..] == "";
    assert Words("") == [];
  }

  // ---------- one line ----------

  predicate Comment(line: string) {
    line == "" || line[0] == '#'
  }

  /** What one line pins: either word may be the address, the first if both are. */
  function Entry(line: string, isIp: string -> bool): (r: Option<Pin>)
    ensures r.Some? ==> Word(r.value.domain) && Word(r.value.ip) && isIp(r.value.ip)
  {
    var parts := Words(Strip(line));
    if Comment(Strip(line)) || |parts| < 2 then None
    else if isIp(parts[0]) then Some(Pin(parts[1], parts[0]))
    else if isIp(parts[1]) then Some(Pin(parts[0], parts[1]))
    else None
  }

  /**
   What a line pins, by its words alone: nothing if there are fewer than two, if the first starts with `#`, or if
   neither of the first two is an address; further words do not matter.
   */
  lemma EntryTells(line: string, isIp: string -> bool)
    ensures var w := Words(line);
      Entry(line, isIp) ==
      if |w| < 2 || w[0][0] == '#' then None
      else if isIp(w[0]) then Some(Pin(w[1], w[0]))
      else if isIp(w[1]) then Some(Pin(w[0], w[1])) else None
  {
    StripStartKeepsWords(line);
    StripEndKeepsWords(StripStart(line));
    if StripStart(line) != "" {
      FirstWord(Strip(line));
    }
  }

  /** An address is never empty and never starts like a comment. */
  ghost predicate Addresses(isIp: string -> bool) {
    forall t :: isIp(t) ==> !Comment(t)
  }

  ghost predicate Pinnable(domain: string, ip: string, isIp: string -> bool) {
    Word(domain) && Word(ip) && isIp(ip)
  }

  function Row(domain: string, ip: string): string {
    ip + "\t" + domain
  }

  lemma RowIsRead(domain: string, ip: string, isIp: string -> bool)
    requires Addresses(isIp) && Pinnable(domain, ip, isIp)
    ensures OneLine(Row(domain, ip)) && Entry(Row(domain, ip), isIp) == Some(Pin(domain, ip))
  {
    var line := Row(domain, ip);
    assert line[0] == ip[0] && line[|line| - 1] == domain[|domain| - 1];
    assert Strip(line) == line;
    FirstIs(line, Space, |ip|);
    assert line[..|ip|] == ip && line[|ip|..] == "\t" + domain;
    FirstIs("\t" + domain, Space, 0);
    assert ("\t" + domain)[1..] == domain;
    OneWord(domain);
    assert Words(line) == [ip, domain];
  }

  // ---------- a whole file ----------

  /** Line `i` is the last one to pin `d`, and pins it to `ip`. */
  ghost predicate LastToPin(lines: seq<string>, i: nat, d: string, ip: string, isIp: string -> bool) {
    && i < |lines| && Entry(lines[i], isIp) == Some(Pin(d, ip))
    && forall j :: i < j < |lines| && Entry(lines[j], isIp).Some? ==> Entry(lines[j], isIp).value.domain != d
  }

  /** `pins` is what the lines say: for each domain, what the last line that names it says. */
  ghost predicate Says(lines: seq<string>, pins: Pins, isIp: string -> bool) {
    && (forall d :: d in pins ==> exists i :: LastToPin(lines, i, d, pins[d], isIp))
    && forall i :: 0 <= i < |lines| && Entry(lines[i], isIp).Some? ==> Entry(lines[i], isIp).value.domain in pins
  }

  lemma SaysOneThing(lines: seq<string>, p: Pins, q: Pins, isIp: string -> bool)
    requires Says(lines, p, isIp) && Says(lines, q, isIp)
    ensures p == q
  {
    forall d | d in p
      ensures d in q && p[d] == q[d]
    {
      SaysSame(lines, p, q, d, isIp);
    }
    forall d | d in q
      ensures d in p && p[d] == q[d]
    {
      SaysSame(lines, q, p, d, isIp);
    }
  }

  lemma SaysSame(lines: seq<string>, p: Pins, q: Pins, d: string, isIp: string -> bool)
    requires Says(lines, p, isIp) && Says(lines, q, isIp) && d in p
    ensures d in q && p[d] == q[d]
  {
    var i: nat :| LastToPin(lines, i, d, p[d], isIp);
    assert d in q;
    var j: nat :| LastToPin(lines, j, d, q[d], isIp);
    assert i == j;
  }

  lemma LastStays(lines: seq<string>, n: nat, i: nat, d: string, ip: string, isIp: string -> bool)
    requires n < |lines| && LastToPin(lines[..n], i, d, ip, isIp)
    requires Entry(lines[n], isIp).Some? ==> Entry(lines[n], isIp).value.domain != d
    ensures LastToPin(lines[..n + 1], i, d, ip, isIp)
  {
    forall j | i < j < n + 1 && Entry(lines[j], isIp).Some?
      ensures Entry(lines[j], isIp).value.domain != d
    {
      assert j < n ==> lines[j] == lines[..n][j];
    }
  }

  lemma SaysNext(lines: seq<string>, n: nat, before: Pins, isIp: string -> bool)
    requires n < |lines| && Says(lines[..n], before, isIp)
    ensures Says(lines[..n + 1], After(before, lines[n], isIp), isIp)
  {
    var now := After(before, lines[n], isIp);
    var short, long := lines[..n], lines[..n + 1];
    var e := Entry(lines[n], isIp);
    assert long == short + [lines[n]];
    forall d | d in now
      ensures exists i :: LastToPin(long, i, d, now[d], isIp)
    {
      if e.Some? && e.value.domain == d {
        assert LastToPin(long, n, d, now[d], isIp);
      } else {
        var i: nat :| LastToPin(short, i, d, before[d], isIp);
        LastStays(lines, n, i, d, before[d], isIp);
      }
    }
    forall i | 0 <= i < |long| && Entry(long[i], isIp).Some?
      ensures Entry(long[i], isIp).value.domain in now
    {
      assert i < n ==> long[i] == short[i];
    }
  }

  function After(pins: Pins, line: string, isIp: string -> bool): Pins {
    match Entry(line, isIp)
    case None => pins
    case Some(pin) => pins[pin.domain := pin.ip]
  }

  function ReadAll(lines: seq<string>, isIp: string -> bool): Pins {
    if lines == [] then map[] else After(ReadAll(lines[..|lines| - 1], isIp), lines[|lines| - 1], isIp)
  }

  function Parsed(text: string, isIp: string -> bool): Pins {
    ReadAll(Lines(text), isIp)
  }

  /** Whatever the file holds, the last line that names a domain decides it. */
  lemma {:induction false} ParsedSays(lines: seq<string>, isIp: string -> bool)
    ensures Says(lines, ReadAll(lines, isIp), isIp)
  {
    if lines != [] {
      var n := |lines| - 1;
      ParsedSays(lines[..n], isIp);
      SaysNext(lines, n, ReadAll(lines[..n], isIp), isIp);
      assert lines[..n + 1] == lines;
    }
  }

  method ParsePins(text: string, isIp: string -> bool) returns (pins: Pins)
    ensures pins == Parsed(text, isIp)
    ensures Says(Lines(text), pins, isIp)
  {
    var lines := Lines(text);
    pins := map[];
    for n := 0 to |lines|
      invariant pins == ReadAll(lines[..n], isIp)
    {
      var line := Strip(lines[n]);
      ghost var before := pins;
      if !Comment(line) {
        var parts := Words(line);
        if |parts| >= 2 {
          if isIp(parts[0]) {
            pins := pins[parts[1] := parts[0]];
          } else if isIp(parts[1]) {
            pins := pins[parts[0] := parts[1]];
          }
        }
      }
      assert pins == After(before, lines[n], isIp);
      assert lines[..n + 1][..n] == lines[..n];
    }
    assert lines[..|lines|] == lines;
    ParsedSays(lines, isIp);
  }

  // ---------- writing ----------

  ghost predicate Sorted(s: seq<string>, keys: set<string>) {
    && (forall d :: d in s <==> d in keys)
    && forall i, j :: 0 <= i < j < |s| ==> s[i] != s[j] && LexLeq(s[i], s[j])
  }

  /** `s` with `d` put in its place. */
  function Placed(s: seq<string>, d: string): seq<string> {
    if s == [] || LexLeq(d, s[0]) then [d] + s else [s[0]] + Placed(s[1..], d)
  }

  lemma {:induction false} PlacedIsSorted(s: seq<string>, keys: set<string>, d: string)
    requires Sorted(s, keys) && d !in keys
    ensures Sorted(Placed(s, d), keys + {d})
  {
    if s != [] {
      if LexLeq(d, s[0]) {
        forall i | 0 <= i < |s|
          ensures LexLeq(d, s[i])
        {
          if i > 0 {
            LexTransitive(d, s[0], s[i]);
          }
        }
      } else {
        LexTotal(d, s[0]);
        assert s[0] in s && s[0] in keys;
        forall e ensures e in s[1..] <==> e in keys - {s[0]} {
          assert e in s <==> e == s[0] || e in s[1..];
        }
        PlacedIsSorted(s[1..], keys - {s[0]}, d);
        var t := Placed(s[1..], d);
        forall j | 0 <= j < |t|
          ensures s[0] != t[j] && LexLeq(s[0], t[j])
        {
          assert t[j] in keys - {s[0]} + {d};
          if t[j] != d {
            assert t[j] in s[1..];
          }
        }
      }
    }
  }

  /** There is one sorted list, so the file is determined by the pins. */
  lemma {:induction false} SortedIsUnique(s: seq<string>, t: seq<string>, keys: set<string>)
    requires Sorted(s, keys) && Sorted(t, keys)
    ensures s == t
  {
    assert t != [] ==> t[0] in t;
    if s != [] {
      assert s[0] in s && t != [];
      assert s[0] in t && t[0] in s;
      var i :| 0 <= i < |t| && t[i] == s[0];
      var j :| 0 <= j < |s| && s[j] == t[0];
      if s[0] != t[0] {
        assert LexLeq(t[0], s[0]) && LexLeq(s[0], t[0]);
        LexAntisymmetric(s[0], t[0]);
      }
      forall e ensures (e in s[1..] <==> e in keys - {s[0]}) && (e in t[1..] <==> e in keys - {s[0]}) {
        assert (e in s <==> e == s[0] || e in s[1..]) && (e in t <==> e == t[0] || e in t[1..]);
      }
      SortedIsUnique(s[1..], t[1..], keys - {s[0]});
      assert s == [s[0]] + s[1..] && t == [t[0]] + t[1..];
    }
  }

  method SortKeys(keys: set<string>) returns (s: seq<string>)
    ensures Sorted(s, keys)
  {
    s := [];
    var rest := keys;
    while rest != {}
      invariant rest <= keys && Sorted(s, keys - rest)
      decreases |rest|
    {
      var d :| d in rest;
      PlacedIsSorted(s, keys - rest, d);
      assert keys - rest + {d} == keys - (rest - {d});
      s, rest := Placed(s, d), rest - {d};
    }
    assert keys - {} == keys;
  }

  // Short literals: the verifier looks into them character by character.
  const GENERATED := "# Generated by " + "blockcheckS \U{2014} " + "verified DoH records " + "(anti-hijack)."
  const COPY_TO := "# Copy to C:\\Windows" + "\\System32\\drivers" + "\\etc\\hosts on Windows."
  const REFRESHED := "# Auto-refreshed " + "by blockcheckS " + "IP pinning; " + "hand-editable."
  const HEADERS := [GENERATED, COPY_TO, REFRESHED]

  function Rows(pins: Pins, order: seq<string>): (r: seq<string>)
    requires forall d :: d in order ==> d in pins
    ensures |r| == |order| && forall i :: 0 <= i < |r| ==> r[i] == Row(order[i], pins[order[i]])
  {
    seq(|order|, i requires 0 <= i < |order| => Row(order[i], pins[order[i]]))
  }

  /** `text` is the file for `pins`: the headers and a row per domain, in order. */
  ghost predicate IsFile(text: string, pins: Pins) {
    exists order :: Sorted(order, pins.Keys) && text == Join(HEADERS + Rows(pins, order)) + "\n"
  }

  method DumpPins(pins: Pins) returns (text: string)
    ensures IsFile(text, pins)
  {
    var order := SortKeys(pins.Keys);
    var lines := HEADERS;
    for i := 0 to |order|
      invariant lines == HEADERS + Rows(pins, order)[..i]
    {
      lines := lines + [Row(order[i], pins[order[i]])];
    }
    assert Rows(pins, order)[..|order|] == Rows(pins, order);
    text := Join(lines) + "\n";
  }

  lemma HeadersAreComments(isIp: string -> bool)
    ensures forall i :: 0 <= i < |HEADERS| ==> OneLine(HEADERS[i]) && Entry(HEADERS[i], isIp) == None
  {
    GeneratedIsComment();
    CopyToIsComment();
    RefreshedIsComment();
  }

  lemma GeneratedIsComment()
    ensures OneLine(GENERATED) && Comment(Strip(GENERATED))
  {
    StartsWithHash(GENERATED);
  }

  lemma CopyToIsComment()
    ensures OneLine(COPY_TO) && Comment(Strip(COPY_TO))
  {
    StartsWithHash(COPY_TO);
  }

  lemma RefreshedIsComment()
    ensures OneLine(REFRESHED) && Comment(Strip(REFRESHED))
  {
    StartsWithHash(REFRESHED);
  }

  lemma StartsWithHash(s: string)
    requires s != "" && s[0] == '#'
    ensures Comment(Strip(s))
  {
    HashStays(s);
  }

  lemma {:induction false} HashStays(s: string)
    requires s != "" && s[0] == '#'
    ensures StripEnd(s) != "" && StripEnd(s)[0] == '#'
  {
    if Space(s[|s| - 1]) {
      HashStays(s[..|s| - 1]);
    }
  }

  ghost predicate AllPinnable(pins: Pins, isIp: string -> bool) {
    forall d :: d in pins ==> Pinnable(d, pins[d], isIp)
  }

  /** What is read from any text can be written. */
  lemma ParsedArePinnable(text: string, isIp: string -> bool)
    ensures AllPinnable(Parsed(text, isIp), isIp)
  {
    var pins := Parsed(text, isIp);
    ParsedSays(Lines(text), isIp);
    forall d | d in pins
      ensures Pinnable(d, pins[d], isIp)
    {
      var i :| LastToPin(Lines(text), i, d, pins[d], isIp);
    }
  }

  /** Each line of a written file: comments, then a row per domain. */
  lemma LineSays(pins: Pins, order: seq<string>, isIp: string -> bool, i: nat)
    requires Addresses(isIp) && AllPinnable(pins, isIp) && Sorted(order, pins.Keys)
    requires i < |HEADERS + Rows(pins, order)|
    ensures var line, h := (HEADERS + Rows(pins, order))[i], |HEADERS|;
      OneLine(line) && Entry(line, isIp) == if i < h then None else Some(Pin(order[i - h], pins[order[i - h]]))
  {
    var h := |HEADERS|;
    if i < h {
      HeadersAreComments(isIp);
      assert (HEADERS + Rows(pins, order))[i] == HEADERS[i];
    } else {
      assert order[i - h] in order;
      RowIsRead(order[i - h], pins[order[i - h]], isIp);
    }
  }

  /** The rows of pinnable domains say exactly the pins. */
  lemma RowsSay(pins: Pins, order: seq<string>, isIp: string -> bool)
    requires Addresses(isIp) && AllPinnable(pins, isIp) && Sorted(order, pins.Keys)
    ensures forall i :: 0 <= i < |HEADERS + Rows(pins, order)| ==> OneLine((HEADERS + Rows(pins, order))[i])
    ensures Says(HEADERS + Rows(pins, order), pins, isIp)
  {
    var lines := HEADERS + Rows(pins, order);
    var h := |HEADERS|;
    forall i | 0 <= i < |lines|
      ensures OneLine(lines[i])
      ensures Entry(lines[i], isIp) == if i < h then None else Some(Pin(order[i - h], pins[order[i - h]]))
    {
      LineSays(pins, order, isIp, i);
    }
    forall d | d in pins
      ensures exists i :: LastToPin(lines, i, d, pins[d], isIp)
    {
      assert d in order;
      var k :| 0 <= k < |order| && order[k] == d;
      assert LastToPin(lines, h + k, d, pins[d], isIp);
    }
  }

  /** Reading a written file gives the pins back exactly when each of them is a word pinned to an address. */
  lemma DumpThenParse(pins: Pins, text: string, isIp: string -> bool)
    requires Addresses(isIp) && IsFile(text, pins)
    ensures Parsed(text, isIp) == pins <==> AllPinnable(pins, isIp)
  {
    ParsedArePinnable(text, isIp);
    if AllPinnable(pins, isIp) {
      var order :| Sorted(order, pins.Keys) && text == Join(HEADERS + Rows(pins, order)) + "\n";
      var lines := HEADERS + Rows(pins, order);
      RowsSay(pins, order, isIp);
      LinesOfJoin(lines);
      ParsedSays(lines, isIp);
      SaysOneThing(lines, Parsed(text, isIp), pins, isIp);
    }
  }

  // ---------- merging ----------

  /** What `updates` says of the domains outside `rest`. */
  function Named(updates: Pins, rest: set<string>): Pins {
    map d | d in updates && updates[d] != "" && d !in rest :: updates[d]
  }

  /** `current` overlaid by the updates that are not empty. */
  function Overlaid(current: Pins, updates: Pins): Pins {
    current + Named(updates, {})
  }

  method MergePins(current: Pins, updates: Pins) returns (merged: Pins)
    ensures merged == Overlaid(current, updates)
  {
    merged := current;
    var rest := updates.Keys;
    while rest != {}
      invariant rest <= updates.Keys
      invariant merged == current + Named(updates, rest)
      decreases |rest|
    {
      var d :| d in rest;
      NamedNext(updates, rest, d);
      if updates[d] != "" {
        merged := merged[d := updates[d]];
      }
      rest := rest - {d};
    }
  }

  lemma NamedNext(updates: Pins, rest: set<string>, d: string)
    requires d in rest && d in updates
    ensures Named(updates, rest - {d}) ==
            if updates[d] != "" then Named(updates, rest)[d := updates[d]] else Named(updates, rest)
  {
  }

  function FirstIps(records: map<string, Record>): Pins {
    map d | d in records && records[d].ips != [] :: records[d].ips[0]
  }

  method CollectFirstIps(records: map<string, Record>) returns (firsts: Pins)
    ensures firsts == FirstIps(records)
  {
    firsts := map[];
    var rest := records.Keys;
    while rest != {}
      invariant rest <= records.Keys
      invariant firsts == FirstIps(map d | d in records.Keys - rest :: records[d])
      decreases |rest|
    {
      var d :| d in rest;
      if records[d].ips != [] {
        firsts := firsts[d := records[d].ips[0]];
      }
      rest := rest - {d};
    }
    assert (map d | d in records.Keys - {} :: records[d]) == records;
  }

  /** A record that `WriteHosts` uses can be written: its domain is a word and its first address an address. */
  ghost predicate Writable(records: map<string, Record>, isIp: string -> bool) {
    forall d :: d in FirstIps(records) && FirstIps(records)[d] != "" ==> Pinnable(d, FirstIps(records)[d], isIp)
  }

  lemma OverlayIsPinnable(current: Pins, records: map<string, Record>, isIp: string -> bool)
    requires AllPinnable(current, isIp)
    ensures AllPinnable(Overlaid(current, FirstIps(records)), isIp) <==> Writable(records, isIp)
  {
    var firsts := FirstIps(records);
    var merged := Overlaid(current, firsts);
    forall d | d in firsts && firsts[d] != ""
      ensures d in merged && merged[d] == firsts[d]
    {
      assert d in current.Keys + firsts.Keys;
    }
  }

  class ProviderStore {
    var hostsFile: Option<string>

    constructor (text: Option<string>)
      ensures hostsFile == text
    {
      hostsFile := text;
    }

    /** The pins on file; a missing file has none. */
    function Pinned(isIp: string -> bool): Pins
      reads this
    {
      if hostsFile.Some? then Parsed(hostsFile.value, isIp) else map[]
    }

    /** The pins on file are overlaid by the first address of each record, and nothing else changes. */
    method WriteHosts(records: map<string, Record>, isIp: string -> bool)
      requires Addresses(isIp)
      modifies this
      ensures hostsFile.Some? && IsFile(hostsFile.value, Overlaid(old(Pinned(isIp)), FirstIps(records)))
      ensures Pinned(isIp) == Overlaid(old(Pinned(isIp)), FirstIps(records)) <==> Writable(records, isIp)
    {
      var existing: Pins := map[];
      if hostsFile.Some? {
        existing := ParsePins(hostsFile.value, isIp);
        ParsedArePinnable(hostsFile.value, isIp);
      }
      var firsts := CollectFirstIps(records);
      var merged := MergePins(existing, firsts);
      var text := DumpPins(merged);
      DumpThenParse(merged, text, isIp);
      OverlayIsPinnable(existing, records, isIp);
      hostsFile := Some(text);
    }
  }
}
