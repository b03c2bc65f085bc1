/** The property loader of init/init_ocn.cpp: what a text of "key=value" lines means. */
module Properties {
  import opened Options

  datatype Pair = Pair(key: string, value: string)

  /** isspace in the C locale. */
  predicate IsSpace(c: char) {
    c == ' ' || c == '\t' || c == '\n' || c == 11 as char || c == 12 as char || c == '\r'
  }

  /** Tab, newline, vertical tab, form feed, carriage return and blank, by their codes. */
  lemma SpaceCodes(c: char)
    ensures IsSpace(c) <==> 9 <= c as int <= 13 || c as int == 32
  {
  }

  function TrimLeft(s: string): string {
    if s != [] && IsSpace(s[0]) then TrimLeft(s[1..]) else s
  }

  function TrimRight(s: string): string {
    if s != [] && IsSpace(s[|s| - 1]) then TrimRight(s[..|s| - 1]) else s
  }

  lemma {:induction false} TrimLeftFacts(s: string)
    ensures var r := TrimLeft(s); |r| <= |s| && r == s[|s| - |r|..]
    ensures var r := TrimLeft(s); r != [] ==> !IsSpace(r[0])
    ensures var r := TrimLeft(s); forall i | 0 <= i < |s| - |r| :: IsSpace(s[i])
  {
    if s != [] && IsSpace(s[0]) {
      TrimLeftFacts(s[1..]);
      assert forall i | 1 <= i < |s| :: s[i] == s[1..][i - 1];
    }
  }

  lemma {:induction false} TrimRightFacts(s: string)
    ensures var r := TrimRight(s); |r| <= |s| && r == s[..|r|]
    ensures var r := TrimRight(s); r != [] ==> !IsSpace(r[|r| - 1])
    ensures var r := TrimRight(s); forall i | |r| <= i < |s| :: IsSpace(s[i])
  {
    if s != [] && IsSpace(s[|s| - 1]) {
      TrimRightFacts(s[..|s| - 1]);
    }
  }

  lemma {:induction false} LeadingSpaces(w: string, k: nat)
    requires k <= |w| && (forall i | 0 <= i < k :: IsSpace(w[i])) && (k < |w| ==> !IsSpace(w[k]))
    ensures TrimLeft(w) == w[k..]
  {
    if k > 0 {
      LeadingSpaces(w[1..], k - 1);
    }
  }

  lemma {:induction false} TrailingSpaces(w: string, k: nat)
    requires k <= |w| && (forall i | k <= i < |w| :: IsSpace(w[i])) && (k > 0 ==> !IsSpace(w[k - 1]))
    ensures TrimRight(w) == w[..k]
  {
    if k < |w| {
      TrailingSpaces(w[..|w| - 1], k);
      assert w[..|w| - 1][..k] == w[..k];
    } else {
      assert w[..k] == w;
    }
  }

  lemma TrimRightKeepsFirst(s: string)
    requires s != [] && !IsSpace(s[0])
    ensures TrimRight(s) != [] && TrimRight(s)[0] == s[0]
  {
    TrimRightFacts(s);
  }

  /** Where c first occurs at or after i. */
  function FindFrom(s: string, c: char, i: nat): (k: Option<nat>)
    requires i <= |s|
    ensures k.Some? ==> k.value < |s|
    decreases |s| - i
  {
    if i == |s| then None else if s[i] == c then Some(i) else FindFrom(s, c, i + 1)
  }

  /** Where c first occurs. */
  function Find(s: string, c: char): (k: Option<nat>)
    ensures k.Some? ==> k.value < |s|
  {
    FindFrom(s, c, 0)
  }

  lemma {:induction false} FindFromFacts(s: string, c: char, i: nat)
    requires i <= |s|
    ensures var k := FindFrom(s, c, i); k.Some? ==> i <= k.value && s[k.value] == c && forall j | i <= j < k.value :: s[j] != c
    ensures var k := FindFrom(s, c, i); k.None? ==> forall j | i <= j < |s| :: s[j] != c
    decreases |s| - i
  {
    if i < |s| && s[i] != c {
      FindFromFacts(s, c, i + 1);
    }
  }

  /** Find finds the first occurrence, iff there is one. */
  lemma FindFacts(s: string, c: char)
    ensures var k := Find(s, c); k.Some? ==> s[k.value] == c && forall j | 0 <= j < k.value :: s[j] != c
    ensures var k := Find(s, c); k.None? ==> forall j | 0 <= j < |s| :: s[j] != c
  {
    FindFromFacts(s, c, 0);
  }

  /** A line: trimmed, unless it is a comment, and split at its first '='. */
  function ParseLine(line: string): Option<Pair> {
    var t := TrimRight(TrimLeft(line));
    if t != [] && t[0] == '#' then None
    else
      var k := Find(t, '=');
      if k.None? then None
      else Some(Pair(TrimRight(t[..k.value]), TrimLeft(t[k.value + 1..])))
  }

  /** The lines of a text. What follows the last newline is no line. */
  function Lines(text: string): seq<string>
    decreases |text|
  {
    var k := Find(text, '\n');
    if k.None? then [] else [text[..k.value]] + Lines(text[k.value + 1..])
  }

  function ParseAll(lines: seq<string>): (r: seq<Option<Pair>>)
    ensures |r| == |lines| && forall i | 0 <= i < |r| :: r[i] == ParseLine(lines[i])
  {
    seq(|lines|, i requires 0 <= i < |lines| => ParseLine(lines[i]))
  }

  /** The pairs among what the lines parse to. */
  function Pairs(parsed: seq<Option<Pair>>): seq<Pair> {
    if parsed == [] then []
    else
      var init, p := Pairs(parsed[..|parsed| - 1]), parsed[|parsed| - 1];
      if p.Some? then init + [p.value] else init
  }

  function Load(text: string): seq<Pair> {
    Pairs(ParseAll(Lines(text)))
  }

  // ---------- the property store ----------

  function Override(store: map<string, string>, p: Pair): map<string, string> {
    store[p.key := p.value]
  }

  function OverrideAll(store: map<string, string>, pairs: seq<Pair>): map<string, string> {
    if pairs == [] then store else Override(OverrideAll(store, pairs[..|pairs| - 1]), pairs[|pairs| - 1])
  }

  /** Properties that no pair names stay as they were. */
  lemma {:induction false} OthersStay(store: map<string, string>, pairs: seq<Pair>, key: string)
    requires forall i | 0 <= i < |pairs| :: pairs[i].key != key
    ensures key in OverrideAll(store, pairs) <==> key in store
    ensures key in store ==> OverrideAll(store, pairs)[key] == store[key]
  {
    if pairs != [] {
      OthersStay(store, pairs[..|pairs| - 1], key);
    }
  }

  /** The last pair for a key decides its value. */
  lemma {:induction false} LastPairWins(store: map<string, string>, pairs: seq<Pair>, i: nat)
    requires i < |pairs| && forall j | i < j < |pairs| :: pairs[j].key != pairs[i].key
    ensures pairs[i].key in OverrideAll(store, pairs) && OverrideAll(store, pairs)[pairs[i].key] == pairs[i].value
  {
    if i < |pairs| - 1 {
      LastPairWins(store, pairs[..|pairs| - 1], i);
    }
  }

  // ---------- printing and parsing ----------

  predicate Trimmed(s: string) {
    s != [] ==> !IsSpace(s[0]) && !IsSpace(s[|s| - 1])
  }

  predicate CleanPair(p: Pair) {
    && Trimmed(p.key) && '=' !in p.key && (p.key != [] ==> p.key[0] != '#')
    && Trimmed(p.value)
  }

  predicate OneLine(p: Pair) {
    '\n' !in p.key && '\n' !in p.value
  }

  function PrintLine(p: Pair): string {
    p.key + ['='] + p.value
  }

  function Print(pairs: seq<Pair>): string {
    if pairs == [] then [] else PrintLine(pairs[0]) + ['\n'] + Print(pairs[1..])
  }

  lemma TrimmedStays(s: string)
    requires Trimmed(s)
    ensures TrimLeft(s) == s && TrimRight(s) == s
  {
  }

  lemma FindFirst(a: string, c: char, b: string)
    requires c !in a
    ensures Find(a + [c] + b, c) == Some(|a|)
  {
    var s := a + [c] + b;
    FindFacts(s, c);
    assert s[|a|] == c && s[..|a|] == a;
  }

  lemma PrintedLine(p: Pair)
    ensures
      var line := PrintLine(p);
      && line[..|p.key|] == p.key && line[|p.key| + 1..] == p.value
      && line[0] == (if p.key == [] then '=' else p.key[0])
      && line[|line| - 1] == (if p.value == [] then '=' else p.value[|p.value| - 1])
      && (OneLine(p) ==> '\n' !in line)
  {
  }

  lemma TrimmedLineParses(line: string, key: string, value: string)
    requires Trimmed(line) && (line != [] ==> line[0] != '#')
    requires Find(line, '=') == Some(|key|) && line[..|key|] == key && line[|key| + 1..] == value
    requires Trimmed(key) && Trimmed(value)
    ensures ParseLine(line) == Some(Pair(key, value))
  {
    TrimmedStays(line);
    TrimmedStays(key);
    TrimmedStays(value);
  }

  lemma CleanLineParses(p: Pair)
    requires CleanPair(p)
    ensures ParseLine(PrintLine(p)) == Some(p)
  {
    PrintedLine(p);
    FindFirst(p.key, '=', p.value);
    TrimmedLineParses(PrintLine(p), p.key, p.value);
  }

  lemma SplitIsClean(t: string, k: nat)
    requires Trimmed(t) && (t != [] ==> t[0] != '#') && k < |t| && forall i | 0 <= i < k :: t[i] != '='
    ensures CleanPair(Pair(TrimRight(t[..k]), TrimLeft(t[k + 1..])))
  {
    KeyIsClean(t, k);
    ValueIsClean(t, k);
  }

  lemma KeyIsClean(t: string, k: nat)
    requires Trimmed(t) && (t != [] ==> t[0] != '#') && k < |t| && forall i | 0 <= i < k :: t[i] != '='
    ensures
      var key := TrimRight(t[..k]);
      Trimmed(key) && '=' !in key && (key != [] ==> key[0] != '#')
  {
    var key := TrimRight(t[..k]);
    TrimRightFacts(t[..k]);
    assert forall i | 0 <= i < |key| :: key[i] == t[i];
  }

  lemma ValueIsClean(t: string, k: nat)
    requires Trimmed(t) && k < |t|
    ensures Trimmed(TrimLeft(t[k + 1..]))
  {
    var value := TrimLeft(t[k + 1..]);
    TrimLeftFacts(t[k + 1..]);
    assert value != [] ==> value[|value| - 1] == t[|t| - 1];
  }

  /** Whatever a line parses to is clean. */
  lemma ParsedPairsAreClean(line: string)
    requires ParseLine(line).Some?
    ensures CleanPair(ParseLine(line).value)
  {
    var t := TrimRight(TrimLeft(line));
    TrimLeftFacts(line);
    TrimRightFacts(TrimLeft(line));
    FindFacts(t, '=');
    assert t != [] ==> t[0] == TrimLeft(line)[0];
    SplitIsClean(t, Find(t, '=').value);
  }

  /** A printed pair parses back iff it is clean. */
  lemma LineRoundTripsIff(p: Pair)
    ensures ParseLine(PrintLine(p)) == Some(p) <==> CleanPair(p)
  {
    if CleanPair(p) {
      CleanLineParses(p);
    } else if ParseLine(PrintLine(p)).Some? {
      ParsedPairsAreClean(PrintLine(p));
    }
  }

  // ---------- lines with spaces in them ----------

  predicate Spaces(s: string) {
    forall i | 0 <= i < |s| :: IsSpace(s[i])
  }

  lemma LeadIsTrimmed(a: string, s: string)
    requires Spaces(a) && (s != [] ==> !IsSpace(s[0]))
    ensures TrimLeft(a + s) == s
  {
    LeadingSpaces(a + s, |a|);
  }

  lemma EndIsTrimmed(s: string, d: string)
    requires Spaces(d) && (s != [] ==> !IsSpace(s[|s| - 1]))
    ensures TrimRight(s + d) == s
  {
    TrailingSpaces(s + d, |s|);
  }

  /** A key part and a value part around the first '=' of a trimmed line. */
  lemma PartsParse(head: string, tail: string, key: string, value: string)
    requires '=' !in head && TrimRight(head) == key && TrimLeft(tail) == value
    requires Trimmed(head + ['='] + tail) && (head != [] ==> head[0] != '#')
    ensures ParseLine(head + ['='] + tail) == Some(Pair(key, value))
  {
    var t := head + ['='] + tail;
    TrimmedStays(t);
    FindFirst(head, '=', tail);
    assert t[..|head|] == head && t[|head| + 1..] == tail;
    assert t[0] == if head == [] then '=' else head[0];
  }

  /** The line without its outer spaces. */
  lemma OuterSpaces(a: string, t: string, d: string)
    requires Spaces(a) && Spaces(d) && Trimmed(t) && t != []
    ensures ParseLine(a + t + d) == ParseLine(t)
  {
    assert a + t + d == a + (t + d) && (t + d)[0] == t[0];
    LeadIsTrimmed(a, t + d);
    EndIsTrimmed(t, d);
    TrimmedStays(t);
  }

  lemma KeyPart(key: string, b: string)
    requires Trimmed(key) && '=' !in key && key != [] && Spaces(b)
    ensures '=' !in key + b && TrimRight(key + b) == key
  {
    EndIsTrimmed(key, b);
    assert '=' !in b;
  }

  lemma JoinSpaces(a: string, b: string)
    requires Spaces(a) && Spaces(b)
    ensures Spaces(a + b)
  {
  }

  function Head(key: string, b: string): string {
    if key == [] then [] else key + b
  }

  function Tail(c: string, value: string): string {
    if value == [] then [] else c + value
  }

  lemma InnerLine(p: Pair, b: string, c: string)
    requires CleanPair(p) && Spaces(b) && Spaces(c)
    ensures
      var t := Head(p.key, b) + ['='] + Tail(c, p.value);
      Trimmed(t) && ParseLine(t) == Some(p)
  {
    var head, tail := Head(p.key, b), Tail(c, p.value);
    var t := head + ['='] + tail;
    if p.key != [] {
      KeyPart(p.key, b);
      assert t[0] == p.key[0];
    }
    if p.value != [] {
      LeadIsTrimmed(c, p.value);
      assert t[|t| - 1] == p.value[|p.value| - 1];
    }
    PartsParse(head, tail, p.key, p.value);
  }

  /** The spaces around an empty key or value are outer spaces. */
  lemma Regroup(key: string, value: string, a: string, b: string, c: string, d: string)
    ensures
      var lead, end := if key == [] then a + b else a, if value == [] then c + d else d;
      a + key + b + ['='] + c + value + d == lead + (Head(key, b) + ['='] + Tail(c, value)) + end
  {
  }

  /** A clean pair parses back from a line with any spaces around its key, '=' and value. */
  lemma PaddedLineParses(p: Pair, a: string, b: string, c: string, d: string)
    requires CleanPair(p) && Spaces(a) && Spaces(b) && Spaces(c) && Spaces(d)
    ensures ParseLine(a + p.key + b + ['='] + c + p.value + d) == Some(p)
  {
    var lead, end := if p.key == [] then a + b else a, if p.value == [] then c + d else d;
    JoinSpaces(a, b);
    JoinSpaces(c, d);
    InnerLine(p, b, c);
    Regroup(p.key, p.value, a, b, c, d);
    OuterSpaces(lead, Head(p.key, b) + ['='] + Tail(c, p.value), end);
  }

  /** A line sets nothing iff its first character that is no space is '#', or it has no '='. */
  lemma LineSetsNothingIff(line: string)
    ensures ParseLine(line).None? <==>
            (exists i :: 0 <= i < |line| && line[i] == '#' && Spaces(line[..i])) || '=' !in line
  {
    var l := TrimLeft(line);
    var t := TrimRight(l);
    TrimLeftFacts(line);
    TrimRightFacts(l);
    FindFacts(t, '=');
    var n := |line| - |l|;
    CommentIff(line, l, n);
    assert '=' in line <==> '=' in t by {
      assert forall i | 0 <= i < |t| :: t[i] == line[n + i];
      assert forall i | 0 <= i < n || n + |t| <= i < |line| :: IsSpace(line[i]) by {
        assert forall i | n + |t| <= i < |line| :: line[i] == l[i - n];
      }
    }
    if l != [] {
      TrimRightKeepsFirst(l);
    }
  }

  lemma CommentIff(line: string, l: string, n: nat)
    requires n <= |line| && l == line[n..] && Spaces(line[..n]) && (l != [] ==> !IsSpace(l[0]))
    ensures (exists i :: 0 <= i < |line| && line[i] == '#' && Spaces(line[..i])) <==> l != [] && l[0] == '#'
  {
    if exists i :: 0 <= i < |line| && line[i] == '#' && Spaces(line[..i]) {
      var i :| 0 <= i < |line| && line[i] == '#' && Spaces(line[..i]);
      assert forall j | 0 <= j < n :: IsSpace(line[..n][j]) && line[..n][j] == line[j];
      assert forall j | 0 <= j < i :: IsSpace(line[..i][j]) && line[..i][j] == line[j];
    }
    if l != [] && l[0] == '#' {
      assert line[n] == '#' && Spaces(line[..n]);
    }
  }

  lemma FirstLine(line: string, rest: string)
    requires '\n' !in line
    ensures Lines(line + ['\n'] + rest) == [line] + Lines(rest)
  {
    FindFirst(line, '\n', rest);
    var text := line + ['\n'] + rest;
    assert text[..|line|] == line && text[|line| + 1..] == rest;
  }

  lemma {:induction false} PairsJoin(a: seq<Option<Pair>>, b: seq<Option<Pair>>)
    ensures Pairs(a + b) == Pairs(a) + Pairs(b)
    decreases |b|
  {
    if b == [] {
      assert a + b == a;
    } else {
      var init, last := b[..|b| - 1], b[|b| - 1];
      assert a + b == (a + init) + [last] && b == init + [last];
      PairsJoin(a, init);
      PairsAppend(a + init, last);
      PairsAppend(init, last);
    }
  }

  lemma ParseAllFirst(line: string, lines: seq<string>)
    ensures ParseAll([line] + lines) == [ParseLine(line)] + ParseAll(lines)
  {
  }

  lemma PairsFirst(p: Option<Pair>, rest: seq<Option<Pair>>)
    ensures Pairs([p] + rest) == (if p.Some? then [p.value] else []) + Pairs(rest)
  {
    PairsJoin([p], rest);
    assert [p][..0] == [];
  }

  /** A text is loaded line by line. */
  lemma LoadsLineByLine(line: string, rest: string)
    requires '\n' !in line
    ensures Load(line + ['\n'] + rest) == (if ParseLine(line).Some? then [ParseLine(line).value] else []) + Load(rest)
  {
    FirstLine(line, rest);
    ParseAllFirst(line, Lines(rest));
    PairsFirst(ParseLine(line), ParseAll(Lines(rest)));
  }

  /** What follows the last newline is ignored. */
  lemma UnterminatedLineIsIgnored(rest: string)
    requires '\n' !in rest
    ensures Load(rest) == []
  {
    FindFacts(rest, '\n');
    assert Lines(rest) == [];
    assert ParseAll([]) == [];
  }

  function PrintLines(pairs: seq<Pair>): (lines: seq<string>)
    ensures |lines| == |pairs| && forall i | 0 <= i < |pairs| :: lines[i] == PrintLine(pairs[i])
  {
    seq(|pairs|, i requires 0 <= i < |pairs| => PrintLine(pairs[i]))
  }

  lemma {:induction false} PrintedLines(pairs: seq<Pair>)
    requires forall i | 0 <= i < |pairs| :: OneLine(pairs[i])
    ensures Lines(Print(pairs)) == PrintLines(pairs)
  {
    if pairs == [] {
      assert Print(pairs) == [];
    } else {
      PrintedLine(pairs[0]);
      PrintedLines(pairs[1..]);
      FirstLine(PrintLine(pairs[0]), Print(pairs[1..]));
    }
  }

  lemma PairsAppend(parsed: seq<Option<Pair>>, p: Option<Pair>)
    ensures Pairs(parsed + [p]) == if p.Some? then Pairs(parsed) + [p.value] else Pairs(parsed)
  {
    assert (parsed + [p])[..|parsed|] == parsed;
  }

  lemma {:induction false} PairsOfAll(parsed: seq<Option<Pair>>, pairs: seq<Pair>)
    requires |parsed| == |pairs| && forall i | 0 <= i < |pairs| :: parsed[i] == Some(pairs[i])
    ensures Pairs(parsed) == pairs
  {
    if pairs != [] {
      PairsOfAll(parsed[..|parsed| - 1], pairs[..|pairs| - 1]);
    }
  }

  lemma PrintedPairs(pairs: seq<Pair>)
    requires forall i | 0 <= i < |pairs| :: CleanPair(pairs[i])
    ensures Pairs(ParseAll(PrintLines(pairs))) == pairs
  {
    var parsed := ParseAll(PrintLines(pairs));
    forall i | 0 <= i < |pairs| ensures parsed[i] == Some(pairs[i]) {
      CleanLineParses(pairs[i]);
    }
    PairsOfAll(parsed, pairs);
  }

  /** Loading the printed text of clean pairs applies exactly those pairs, in order. */
  lemma LoadUndoesPrint(pairs: seq<Pair>)
    requires forall i | 0 <= i < |pairs| :: CleanPair(pairs[i]) && OneLine(pairs[i])
    ensures Load(Print(pairs)) == pairs
  {
    PrintedLines(pairs);
    PrintedPairs(pairs);
  }
}
