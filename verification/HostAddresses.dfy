/** IPv4 and IPv6 addresses read and printed, as inet_pton and inet_ntop do. */
module HostAddresses {
  import opened Wrappers
  import opened Strings
  import opened Numerals

  // ------------------------------------------------------------------ reading

  function Parts(parts: seq<string>): Option<seq<Octet>> {
    if parts == [] then Some([])
    else if !IsPart(parts[0]) || Value(parts[0], 10) > 255 then None
    else
      var rest := Parts(parts[1..]);
      if rest.Some? then Some([Value(parts[0], 10)] + rest.value) else None
  }

  /** What is read so far, with what is read after it. */
  function After<T>(done: seq<T>, rest: Option<seq<T>>): Option<seq<T>> {
    if rest.Some? then Some(done + rest.value) else None
  }

  lemma AfterNext<T>(done: seq<T>, next: T, rest: Option<seq<T>>)
    ensures After(done + [next], rest) == After(done, After([next], rest))
  {
    if rest.Some? {
      assert done + [next] + rest.value == done + ([next] + rest.value);
    }
  }

  lemma AfterEnds<T>(done: seq<T>, rest: Option<seq<T>>)
    ensures After([], rest) == rest && After(done, Some([])) == Some(done)
  {
    assert done + [] == done;
    if rest.Some? {
      assert [] + rest.value == rest.value;
    }
  }

  /** A dotted quad. */
  function IPv4(text: string): (four: Option<seq<Octet>>)
    ensures four.Some? ==> |four.value| == 4
  {
    var parts := Split(text, '.');
    if |parts| != 4 then None
    else
      PartsLength(parts);
      Parts(parts)
  }

  lemma {:induction false} PartsLength(parts: seq<string>)
    ensures Parts(parts).Some? ==> |Parts(parts).value| == |parts|
  {
    if parts != [] {
      PartsLength(parts[1..]);
    }
  }

  method IPv4Bytes(text: string) returns (four: Option<seq<Octet>>)
    ensures four == IPv4(text)
  {
    var parts := Split(text, '.');
    if |parts| != 4 {
      return None;
    }
    var bytes: seq<Octet> := [];
    assert parts[0..] == parts;
    AfterEnds(bytes, Parts(parts));
    for k := 0 to 4
      invariant |bytes| == k
      invariant Parts(parts) == After(bytes, Parts(parts[k..]))
    {
      assert parts[k..][1..] == parts[k + 1..];
      if !IsPart(parts[k]) || Value(parts[k], 10) > 255 {
        return None;
      }
      var next: Octet := Value(parts[k], 10);
      AfterNext(bytes, next, Parts(parts[k + 1..]));
      bytes := bytes + [next];
    }
    assert parts[4..] == [];
    AfterEnds(bytes, Parts(parts));
    return Some(bytes);
  }

  /** Four numbers of one to three digits each: what the last 32 bits may be written as. */
  predicate IsQuad(text: string) {
    |Split(text, '.')| == 4 && forall p <- Split(text, '.') :: 1 <= |p| <= 3 && Digits(p, 10)
  }

  /** The pieces between occurrences of `::`. */
  function SplitDouble(s: string): (pieces: seq<string>)
    ensures pieces != []
  {
    if s == [] then [[]]
    else if |s| > 1 && s[0] == s[1] == ':' then [[]] + SplitDouble(s[2..])
    else
      var rest := SplitDouble(s[1..]);
      [[s[0]] + rest[0]] + rest[1..]
  }

  function GroupsOf(parts: seq<string>): Option<seq<Word>> {
    if parts == [] then Some([])
    else if !IsGroup(parts[0]) then None
    else
      var rest := GroupsOf(parts[1..]);
      if rest.Some? then Some([GroupValue(parts[0])] + rest.value) else None
  }

  function Groups(half: string): Option<seq<Word>> {
    if half == "" then Some([]) else GroupsOf(Split(half, ':'))
  }

  method ReadGroups(half: string) returns (words: Option<seq<Word>>)
    ensures words == Groups(half)
  {
    if half == "" {
      return Some([]);
    }
    var parts := Split(half, ':');
    var out: seq<Word> := [];
    assert parts[0..] == parts;
    AfterEnds(out, GroupsOf(parts));
    for k := 0 to |parts|
      invariant GroupsOf(parts) == After(out, GroupsOf(parts[k..]))
    {
      assert parts[k..][1..] == parts[k + 1..];
      if !IsGroup(parts[k]) {
        return None;
      }
      AfterNext(out, GroupValue(parts[k]), GroupsOf(parts[k + 1..]));
      out := out + [GroupValue(parts[k])];
    }
    assert parts[|parts|..] == [];
    AfterEnds(out, GroupsOf(parts));
    return Some(out);
  }

  function Zeros(n: nat): (z: seq<Word>)
    ensures |z| == n && forall k :: 0 <= k < n ==> z[k] == 0
  {
    seq(n, _ => 0)
  }

  /** Words from what is before, after and in the dotted tail of an address without its `::`. */
  function Assembled(halves: seq<string>, tail: seq<Word>): Option<seq<Word>>
    requires halves != []
  {
    if |halves| > 2 then None
    else
      var head := Groups(halves[0]);
      var back := if |halves| == 2 then Groups(halves[1]) else Some([]);
      if head.None? || back.None? then None
      else
        var total := |head.value| + |back.value| + |tail|;
        if (if |halves| == 1 then total != 8 else total > 7) then None
        else Some(head.value + Zeros(8 - total) + back.value + tail)
  }

  predicate IsDotted(text: string) {
    LastIndexOf(text, ':') >= 0 && IsQuad(text[LastIndexOf(text, ':') + 1..])
  }

  /** An address before its dotted tail, without a single trailing colon. */
  function BeforeQuad(text: string): string
    requires LastIndexOf(text, ':') >= 0
  {
    var rest := text[..LastIndexOf(text, ':') + 1];
    if EndsWith(rest, "::") then rest else rest[..|rest| - 1]
  }

  function Pair(high: Octet, low: Octet): Word {
    high * 256 + low
  }

  function IPv6(text: string): Option<seq<Word>> {
    if IsDotted(text) then
      var four := IPv4(text[LastIndexOf(text, ':') + 1..]);
      if four.None? then None
      else Assembled(SplitDouble(BeforeQuad(text)), [Pair(four.value[0], four.value[1]), Pair(four.value[2], four.value[3])])
    else Assembled(SplitDouble(text), [])
  }

  /** The sixteen bytes of eight words, the high one of each first. */
  function OctetsOf(words: seq<Word>): seq<Octet> {
    if words == [] then [] else [words[0] / 256, words[0] % 256] + OctetsOf(words[1..])
  }

  function WordsOf(bytes: seq<Octet>): seq<Word>
    requires |bytes| % 2 == 0
  {
    if bytes == [] then [] else [Pair(bytes[0], bytes[1])] + WordsOf(bytes[2..])
  }

  method IPv6Bytes(text: string) returns (bytes: Option<seq<Octet>>)
    ensures bytes == if IPv6(text).Some? then Some(OctetsOf(IPv6(text).value)) else None
  {
    var rest := text;
    var tail: seq<Word> := [];
    if IsDotted(text) {
      var four := IPv4Bytes(text[LastIndexOf(text, ':') + 1..]);
      if four.None? {
        return None;
      }
      tail := [Pair(four.value[0], four.value[1]), Pair(four.value[2], four.value[3])];
      rest := BeforeQuad(text);
    }
    var halves := SplitDouble(rest);
    if |halves| > 2 {
      return None;
    }
    var head := ReadGroups(halves[0]);
    var back := Some([]);
    if |halves| == 2 {
      back := ReadGroups(halves[1]);
    }
    if head.None? || back.None? {
      return None;
    }
    var total := |head.value| + |back.value| + |tail|;
    if (if |halves| == 1 then total != 8 else total > 7) {
      return None;
    }
    var out := WriteWords(head.value + Zeros(8 - total) + back.value + tail);
    return Some(out);
  }

  method WriteWords(words: seq<Word>) returns (out: seq<Octet>)
    ensures out == OctetsOf(words)
  {
    out := [];
    for k := 0 to |words|
      invariant OctetsOf(words) == out + OctetsOf(words[k..])
    {
      assert words[k..][1..] == words[k + 1..];
      out := out + [words[k] / 256, words[k] % 256];
    }
    assert words[|words|..] == [];
  }

  // ------------------------------------------------------------------ printing

  predicate ZeroRun(words: seq<Word>, base: int, len: nat) {
    0 <= base && base + len <= |words| && forall k :: base <= k < base + len ==> words[k] == 0
  }

  /** The run an address is compressed at: the first longest one of two or more zero words; -1 when there is none. */
  ghost predicate Longest(words: seq<Word>, base: int, len: nat) {
    if base == -1 then len == 0 && forall b, n: nat :: ZeroRun(words, b, n) ==> n < 2
    else len >= 2 && ZeroRun(words, base, len) &&
         forall b, n: nat :: ZeroRun(words, b, n) ==> n < len || (n == len && base <= b)
  }

  function Joined(words: seq<Word>): string {
    JoinWith(Hexes(words), ':')
  }

  function Hexes(words: seq<Word>): (parts: seq<string>)
    ensures |parts| == |words|
    ensures forall k :: 0 <= k < |words| ==> parts[k] == Hex(words[k])
  {
    seq(|words|, k requires 0 <= k < |words| => Hex(words[k]))
  }

  function Quad(words: seq<Word>): string
    requires |words| == 2
  {
    Decimal(words[0] / 256) + "." + Decimal(words[0] % 256) + "." + Decimal(words[1] / 256) + "." + Decimal(words[1] % 256)
  }

  /** What the seventh word is asked: a run of seven has it inside, so the middle case never comes up. */
  predicate AskedForQuad(words: seq<Word>, base: int, len: nat)
    requires |words| == 8
  {
    base == 0 && (len == 6 || (len == 7 && words[7] != 1) || (len == 5 && words[5] == 0xffff))
  }

  /** Whether the last two words are written as a dotted quad: an IPv4-compatible or IPv4-mapped address. */
  predicate Mapped(words: seq<Word>, base: int, len: nat)
    requires |words| == 8
  {
    base == 0 && (len == 6 || (len == 5 && words[5] == 0xffff))
  }

  function Tail(words: seq<Word>, base: int, len: nat): string
    requires |words| == 8 && 0 <= base && base + len <= 8
  {
    if Mapped(words, base, len) then (if len == 5 then "ffff:" else "") + Quad(words[6..])
    else Joined(words[base + len..])
  }

  /** Eight words with a run of them left out. */
  function Printed(words: seq<Word>, base: int, len: nat): string
    requires |words| == 8 && (base != -1 ==> 0 <= base && base + len <= 8)
  {
    if base == -1 then Joined(words) else Joined(words[..base]) + "::" + Tail(words, base, len)
  }

  /** Two compressions of one address are the same. */
  lemma LongestIsOne(words: seq<Word>, base: int, len: nat, base': int, len': nat)
    requires Longest(words, base, len) && Longest(words, base', len')
    ensures base == base' && len == len'
  {
  }

  /** The runs that end by an index, the last one at it apart: the best of them, and the one still going on. */
  ghost predicate Scanned(words: seq<Word>, index: nat, base: int, len: nat, start: int)
    requires index <= |words|
  {
    && (if base == -1 then len == 0 else len > 0 && ZeroRun(words, base, len) && base + len <= index)
    && (start != -1 ==> 0 <= start < index && ZeroRun(words, start, index - start))
    && (forall b, n: nat {:trigger ZeroRun(words, b, n)} :: ZeroRun(words, b, n) && 0 < n && b + n <= index ==>
          (start != -1 && b >= start) || n < len || (n == len && base <= b))
    && (start == -1 && index > 0 ==> words[index - 1] != 0)
    && (start > 0 ==> words[start - 1] != 0)
  }

  method LongestRun(words: seq<Word>) returns (base: int, len: nat)
    requires |words| == 8
    ensures Longest(words, base, len)
  {
    base, len := -1, 0;
    var start, count: nat := -1, 0;
    for index := 0 to 8
      invariant count == if start == -1 then 0 else index - start
      invariant Scanned(words, index, base, len, start)
    {
      if words[index] == 0 {
        if start == -1 {
          start, count := index, 1;
        } else {
          count := count + 1;
        }
      } else if start != -1 {
        if base == -1 || count > len {
          base, len := start, count;
        }
        start, count := -1, 0;
      }
    }
    if start != -1 && (base == -1 || count > len) {
      base, len := start, count;
    }
    assert forall b, n: nat :: ZeroRun(words, b, n) && 0 < n ==> n < len || (n == len && base <= b);
    if base != -1 && len < 2 {
      base, len := -1, 0;
    }
  }

  lemma JoinedNext(a: seq<Word>, w: Word)
    ensures Joined(a + [w]) == if a == [] then Hex(w) else Joined(a) + ":" + Hex(w)
    decreases |a|
  {
    assert Hexes(a + [w]) == Hexes(a) + [Hex(w)];
    JoinNext(Hexes(a), Hex(w));
  }

  lemma {:induction false} JoinNext(parts: seq<string>, p: string)
    ensures JoinWith(parts + [p], ':') == if parts == [] then p else JoinWith(parts, ':') + ":" + p
  {
    if |parts| > 1 {
      var rest := parts[1..];
      JoinNext(rest, p);
      Regrouped(parts[0], JoinWith(rest, ':'), p);
      assert JoinWith(parts + [p], ':') == parts[0] + ":" + JoinWith(rest + [p], ':') by {
        hide JoinWith;
        assert (parts + [p])[1..] == rest + [p] && (parts + [p])[0] == parts[0];
        JoinTwo(parts + [p]);
      }
    } else if |parts| == 1 {
      assert (parts + [p])[1..] == [p];
    }
  }

  lemma JoinTwo(parts: seq<string>)
    requires |parts| > 1
    ensures JoinWith(parts, ':') == parts[0] + ":" + JoinWith(parts[1..], ':')
  {
  }

  lemma Regrouped(a: string, b: string, c: string)
    ensures a + ":" + (b + ":" + c) == a + ":" + b + ":" + c
  {
  }

  /** What is printed before an index. */
  function PrintedTo(words: seq<Word>, base: int, len: nat, index: nat): string
    requires |words| == 8 && index <= 8 && (base != -1 ==> 0 <= base && base + len <= 8)
  {
    if base == -1 || index <= base then Joined(words[..index])
    else if index <= base + len then Joined(words[..base]) + ":"
    else Joined(words[..base]) + "::" + Joined(words[base + len..index])
  }

  lemma PrintedNext(words: seq<Word>, base: int, len: nat, index: nat)
    requires |words| == 8 && index < 8 && (base != -1 ==> 0 <= base && base + len <= 8 && len >= 2)
    requires base == -1 || index < base || index >= base + len
    ensures PrintedTo(words, base, len, index + 1)
         == PrintedTo(words, base, len, index) + (if index != 0 then ":" else "") + Hex(words[index])
  {
    if base == -1 || index < base {
      assert words[..index + 1] == words[..index] + [words[index]];
      JoinedNext(words[..index], words[index]);
    } else {
      var after := words[base + len..index];
      assert words[base + len..index + 1] == after + [words[index]];
      JoinedNext(after, words[index]);
      var before := Joined(words[..base]);
      assert before + "::" + Hex(words[index]) == before + ":" + ":" + Hex(words[index]);
    }
  }

  method ReadWords(bytes: seq<Octet>) returns (words: seq<Word>)
    requires |bytes| == 16
    ensures |words| == 8 && words == WordsOf(bytes)
    ensures forall k :: 0 <= k < 8 ==> words[k] == Pair(bytes[2 * k], bytes[2 * k + 1])
  {
    words := [];
    for index := 0 to 8
      invariant |words| == index
      invariant forall k :: 0 <= k < index ==> words[k] == Pair(bytes[2 * k], bytes[2 * k + 1])
      invariant WordsOf(bytes) == words + WordsOf(bytes[2 * index..])
    {
      assert bytes[2 * index..][2..] == bytes[2 * (index + 1)..];
      words := words + [Pair(bytes[index * 2], bytes[index * 2 + 1])];
    }
  }

  method IPv6Text(bytes: seq<Octet>) returns (out: string)
    requires |bytes| == 16
    ensures |WordsOf(bytes)| == 8
    ensures exists base, len: nat :: Longest(WordsOf(bytes), base, len) && out == Printed(WordsOf(bytes), base, len)
  {
    var words := ReadWords(bytes);
    var base, len := LongestRun(words);
    out := PrintWords(words, bytes[12..], base, len);
  }

  method PrintWords(words: seq<Word>, last: seq<Octet>, base: int, len: nat) returns (out: string)
    requires |words| == 8 && Longest(words, base, len)
    requires |last| == 4 && words[6] == Pair(last[0], last[1]) && words[7] == Pair(last[2], last[3])
    ensures out == Printed(words, base, len)
  {
    Compressed(words, base, len);
    PrintedNone(words, base, len);
    PairParts(last[0], last[1]);
    PairParts(last[2], last[3]);
    hide Longest, Joined, Decimal, Hex, PrintedTo, Printed, Tail;
    out := "";
    for index := 0 to 8
      invariant out == PrintedTo(words, base, len, index)
      invariant index > 6 ==> !Mapped(words, base, len)
    {
      if base != -1 && base <= index < base + len {
        PrintedInside(words, base, len, index);
        if index == base {
          out := out + ":";
        }
        continue;
      }
      PrintedNext(words, base, len, index);
      if index != 0 {
        out := out + ":";
      }
      if index == 6 && AskedForQuad(words, base, len) {
        PrintedQuad(words, len);
        out := out + (Decimal(last[0]) + "." + Decimal(last[1]) + "." + Decimal(last[2]) + "." + Decimal(last[3]));
        return;
      }
      out := out + Hex(words[index]);
    }
    PrintedAll(words, base, len);
    if base != -1 && base + len == 8 {
      out := out + ":";
    }
  }

  lemma PrintedNone(words: seq<Word>, base: int, len: nat)
    requires |words| == 8 && (base != -1 ==> 0 <= base && base + len <= 8)
    ensures PrintedTo(words, base, len, 0) == ""
  {
    assert words[..0] == [];
    EmptyJoined();
  }

  lemma PrintedInside(words: seq<Word>, base: int, len: nat, index: nat)
    requires |words| == 8 && 0 <= base <= index < base + len <= 8
    ensures PrintedTo(words, base, len, index + 1) == PrintedTo(words, base, len, index) + if index == base then ":" else ""
  {
  }

  lemma PrintedAll(words: seq<Word>, base: int, len: nat)
    requires |words| == 8 && (base != -1 ==> 0 <= base && base + len <= 8 && len >= 2) && !Mapped(words, base, len)
    ensures Printed(words, base, len)
         == PrintedTo(words, base, len, 8) + if base != -1 && base + len == 8 then ":" else ""
  {
    hide Joined;
    assert words[..8] == words;
    if base != -1 {
      assert words[base + len..8] == words[base + len..];
      EmptyJoined();
      if base + len == 8 {
        assert words[8..] == [];
        assert Joined(words[..base]) + "::" + "" == Joined(words[..base]) + ":" + ":";
      }
    }
  }

  lemma PairParts(high: Octet, low: Octet)
    ensures Pair(high, low) / 256 == high && Pair(high, low) % 256 == low
  {
  }

  lemma Compressed(words: seq<Word>, base: int, len: nat)
    requires |words| == 8 && Longest(words, base, len)
    ensures base != -1 ==> 0 <= base && base + len <= 8 && len >= 2
  {
  }

  lemma EmptyJoined()
    ensures Joined([]) == ""
  {
  }

  /** A mapped address is what is printed before its quad, and the quad. */
  lemma PrintedQuad(words: seq<Word>, len: nat)
    requires |words| == 8 && Mapped(words, 0, len)
    ensures Printed(words, 0, len) == PrintedTo(words, 0, len, 6) + ":" + Quad(words[6..])
    ensures words[6..] == [words[6], words[7]]
  {
    hide Quad;
    EmptyJoined();
    assert words[..0] == [];
    if len == 5 {
      assert words[5..6] == [words[5]];
      assert Joined([words[5]]) == Hex(0xffff) by { JoinedNext([], words[5]); assert [] + [words[5]] == [words[5]]; }
      Ffff();
    }
  }

  lemma Ffff()
    ensures Hex(0xffff) == "ffff"
  {
    assert Numeral(0xf, 16) == "f";
    assert Numeral(0xff, 16) == Numeral(0xf, 16) + "f";
    assert Numeral(0xfff, 16) == Numeral(0xff, 16) + "f";
    assert Numeral(0xffff, 16) == Numeral(0xfff, 16) + "f";
  }
}
