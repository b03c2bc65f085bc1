/** load_properties of init/init_ocn.cpp: it walks one buffer and writes terminators into
    it. Pointers are indices; every access is within the buffer. */
module PropertyLoader {
  import opened Options
  import opened Properties

  const NUL := 0 as char

  /** A C string: at i the buffer holds w and then a terminator. */
  predicate HoldsAt(data: array<char>, i: int, w: string)
    reads data
  {
    && 0 <= i && i + |w| < data.Length
    && (forall j | 0 <= j < |w| :: data[i + j] == w[j] != NUL)
    && data[i + |w|] == NUL
  }

  // ---------- the scans ----------

  /** strchr: the index of c, or -1. */
  method strchr(data: array<char>, from: int, c: char, ghost w: string) returns (k: int)
    requires HoldsAt(data, from, w) && c != NUL
    ensures k == match Find(w, c) case None => -1 case Some(i) => from + i
  {
    k := from;
    while data[k] != NUL && data[k] != c
      invariant from <= k <= from + |w| && forall i | 0 <= i < k - from :: w[i] != c
      decreases from + |w| - k
    {
      assert data[k] == w[k - from];
      k := k + 1;
    }
    FindFacts(w, c);
    if data[k] == NUL {
      assert k == from + |w|;
      assert w[..|w|] == w;
      k := -1;
    } else {
      assert w[k - from] == c;
      FirstIsUnique(w, c, k - from);
    }
  }

  lemma FirstIsUnique(w: string, c: char, k: nat)
    requires k < |w| && w[k] == c && forall i | 0 <= i < k :: w[i] != c
    ensures Find(w, c) == Some(k)
  {
    FindFirst(w[..k], c, w[k + 1..]);
    assert w == w[..k] + [c] + w[k + 1..];
  }

  method skipSpaces(data: array<char>, from: int, ghost w: string) returns (k: int)
    requires HoldsAt(data, from, w)
    ensures k == from + |w| - |TrimLeft(w)| && HoldsAt(data, k, TrimLeft(w))
  {
    k := from;
    while IsSpace(data[k])
      invariant from <= k <= from + |w|
      invariant forall i | 0 <= i < k - from :: IsSpace(w[i])
      decreases from + |w| - k
    {
      assert data[k] == w[k - from];
      k := k + 1;
    }
    LeadingSpaces(w, k - from);
  }

  /** Overwrites trailing spaces with terminators; the first character is never one. */
  method trimBack(data: array<char>, key: int, end: int, ghost w: string)
    requires HoldsAt(data, key, w) && end == key + |w| - 1
    requires w != [] ==> !IsSpace(w[0])
    modifies data
    ensures HoldsAt(data, key, TrimRight(w))
    ensures forall i | 0 <= i < data.Length && !(key <= i < key + |w|) :: data[i] == old(data[i])
  {
    var tmp := end;
    while tmp > key && IsSpace(data[tmp])
      invariant key - 1 <= tmp <= end && (w != [] ==> key <= tmp)
      invariant forall j | tmp - key < j < |w| :: IsSpace(w[j])
      invariant forall j | 0 <= j <= tmp - key :: data[key + j] == w[j]
      invariant data[tmp + 1] == NUL
      invariant forall i | 0 <= i < data.Length && !(key <= i < key + |w|) :: data[i] == old(data[i])
    {
      assert data[tmp] == w[tmp - key];
      data[tmp] := NUL;
      tmp := tmp - 1;
    }
    if w != [] {
      assert data[tmp] == w[tmp - key];
    }
    TrailingSpaces(w, tmp - key + 1);
  }

  method readString(data: array<char>, from: int, ghost w: string) returns (s: string)
    requires HoldsAt(data, from, w)
    ensures s == w
  {
    s := [];
    var k := from;
    while data[k] != NUL
      invariant from <= k <= from + |w| && s == w[..k - from]
      invariant data[k] == if k < from + |w| then w[k - from] else NUL
      decreases from + |w| - k
    {
      s := s + [data[k]];
      k := k + 1;
      assert k < from + |w| ==> data[from + (k - from)] == w[k - from];
    }
    assert w[..|w|] == w;
  }

  // ---------- one line ----------

  /** Writing a terminator into a string splits it in two. */
  method terminate(data: array<char>, i: int, at: int, ghost w: string)
    requires HoldsAt(data, i, w) && i <= at < i + |w|
    modifies data
    ensures HoldsAt(data, i, w[..at - i]) && HoldsAt(data, at + 1, w[at - i + 1..])
    ensures forall k | 0 <= k < data.Length && k != at :: data[k] == old(data[k])
  {
    data[at] := NUL;
    ghost var right := w[at - i + 1..];
    forall j | 0 <= j < |right| ensures data[at + 1 + j] == right[j] != NUL {
      assert right[j] == w[at - i + 1 + j];
      assert data[i + (at - i + 1 + j)] == w[at - i + 1 + j];
    }
    assert data[i + |w|] == NUL;
  }

  /** From the '=' on: split, trim the key's end and the value's start. */
  method splitAt(data: array<char>, key: int, at: int, ghost t: string) returns (pair: Pair)
    requires HoldsAt(data, key, t) && key <= at < key + |t|
    requires t[0] == '=' || !IsSpace(t[0])
    modifies data
    ensures pair == Pair(TrimRight(t[..at - key]), TrimLeft(t[at - key + 1..]))
    ensures forall i | 0 <= i < data.Length && !(key <= i < key + |t|) :: data[i] == old(data[i])
  {
    ghost var left, right := t[..at - key], t[at - key + 1..];
    terminate(data, key, at, t);
    trimBack(data, key, at - 1, left);
    var value := skipSpaces(data, at + 1, right);
    var k := readString(data, key, TrimRight(left));
    var v := readString(data, value, TrimLeft(right));
    pair := Pair(k, v);
  }

  /** The body of the loop; `eol` is just past the end of the line. */
  method loadLine(data: array<char>, sol: int, eol: int, ghost line: string) returns (pair: Option<Pair>)
    requires HoldsAt(data, sol, line) && eol == sol + |line| + 1
    modifies data
    ensures pair == ParseLine(line)
    ensures forall i | 0 <= i < data.Length && !(sol <= i < eol) :: data[i] == old(data[i])
  {
    ghost var left := TrimLeft(line);
    ghost var t := TrimRight(left);
    TrimLeftFacts(line);
    TrimRightFacts(left);
    FindFacts(t, '=');
    var key := skipSpaces(data, sol, line);
    if left != [] {
      TrimRightKeepsFirst(left);
    }
    if data[key] == '#' {
      return None;
    }
    trimBack(data, key, eol - 2, left);
    var value := strchr(data, key, '=', t);
    if value == -1 {
      return None;
    }
    var p := splitAt(data, key, value, t);
    pair := Some(p);
  }

  // ---------- the whole text ----------

  /** Terminates and loads a line; `rest` is the text from this line on. */
  method nextLine(data: array<char>, sol: int, eol: int, ghost rest: string) returns (pair: Option<Pair>)
    requires HoldsAt(data, sol, rest) && sol <= eol < sol + |rest|
    modifies data
    ensures pair == ParseLine(rest[..eol - sol])
    ensures HoldsAt(data, eol + 1, rest[eol - sol + 1..])
  {
    ghost var line, after := rest[..eol - sol], rest[eol - sol + 1..];
    terminate(data, sol, eol, rest);
    pair := loadLine(data, sol, eol + 1, line);
    forall j | 0 <= j < |after| ensures data[eol + 1 + j] == after[j] != NUL {
    }
  }

  /** The lines `done` of a text with lines `all` are parsed and `rest` is still to come. */
  predicate Between(all: seq<string>, done: seq<string>, rest: string, parsed: seq<Option<Pair>>) {
    done + Lines(rest) == all && parsed == ParseAll(done)
  }

  lemma Advance(all: seq<string>, done: seq<string>, rest: string, parsed: seq<Option<Pair>>, k: nat)
    requires Between(all, done, rest, parsed) && Find(rest, '\n') == Some(k)
    ensures Between(all, done + [rest[..k]], rest[k + 1..], parsed + [ParseLine(rest[..k])])
  {
    assert Lines(rest) == [rest[..k]] + Lines(rest[k + 1..]);
  }

  lemma AtEnd(all: seq<string>, done: seq<string>, rest: string, parsed: seq<Option<Pair>>)
    requires Between(all, done, rest, parsed) && Find(rest, '\n').None?
    ensures parsed == ParseAll(all)
  {
    assert done == all;
  }

  /** Where the line that starts at sol ends, -1 if it does not. */
  function EndOfLine(rest: string, sol: int): int {
    match Find(rest, '\n') case None => -1 case Some(i) => sol + i
  }

  class PropertyStore {
    var properties: map<string, string>

    method property_override(key: string, value: string)
      modifies this
      ensures properties == Override(old(properties), Pair(key, value))
    {
      properties := properties[key := value];
    }

    method apply(pair: Option<Pair>, ghost base: map<string, string>, ghost parsed: seq<Option<Pair>>)
      requires properties == OverrideAll(base, Pairs(parsed))
      modifies this
      ensures properties == OverrideAll(base, Pairs(parsed + [pair]))
    {
      PairsAppend(parsed, pair);
      if pair.Some? {
        ghost var pairs := Pairs(parsed);
        assert (pairs + [pair.value])[..|pairs|] == pairs;
        property_override(pair.value.key, pair.value.value);
      }
    }

    /** `text` is a C string, so it has no terminator inside. */
    method load_properties(text: string)
      requires NUL !in text
      modifies this
      ensures properties == OverrideAll(old(properties), Load(text))
    {
      var n := |text|;
      var data := new char[n + 1](i => if 0 <= i < n then text[i] else NUL);
      loadBuffer(data, text);
    }

    /** The loop of load_properties. */
    method loadBuffer(data: array<char>, ghost text: string)
      requires HoldsAt(data, 0, text)
      modifies this, data
      ensures properties == OverrideAll(old(properties), Load(text))
    {
      ghost var all := Lines(text);
      ghost var done, rest, parsed := [], text, [];
      var sol := 0;
      var eol := strchr(data, sol, '\n', rest);
      while eol != -1
        invariant 0 <= sol && HoldsAt(data, sol, rest)
        invariant eol == EndOfLine(rest, sol)
        invariant Between(all, done, rest, parsed)
        invariant properties == OverrideAll(old(properties), Pairs(parsed))
        decreases |rest|
      {
        ghost var line, after := rest[..eol - sol], rest[eol - sol + 1..];
        Advance(all, done, rest, parsed, eol - sol);
        done := done + [line];
        var end := turn(data, sol, eol, rest, old(properties), parsed);
        parsed, rest := parsed + [ParseLine(line)], after;
        sol, eol := eol + 1, end;
      }
      AtEnd(all, done, rest, parsed);
    }

    /** One turn of the loop: the line from sol to eol; returns the end of the next line. */
    method turn(data: array<char>, sol: int, eol: int, ghost rest: string,
                ghost base: map<string, string>, ghost parsed: seq<Option<Pair>>) returns (end: int)
      requires HoldsAt(data, sol, rest) && sol <= eol < sol + |rest|
      requires properties == OverrideAll(base, Pairs(parsed))
      modifies this, data
      ensures HoldsAt(data, eol + 1, rest[eol - sol + 1..])
      ensures properties == OverrideAll(base, Pairs(parsed + [ParseLine(rest[..eol - sol])]))
      ensures end == EndOfLine(rest[eol - sol + 1..], eol + 1)
    {
      ghost var after := rest[eol - sol + 1..];
      var pair := nextLine(data, sol, eol, rest);
      apply(pair, base, parsed);
      end := strchr(data, eol + 1, '\n', after);
    }
  }
}
