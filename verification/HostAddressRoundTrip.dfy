/** What is printed of an IPv6 address reads back as that address. */
module HostAddressRoundTrip {
  import opened Wrappers
  import opened Strings
  import opened Numerals
  import opened HostAddresses

  // ------------------------------------------------------------------ groups

  lemma {:induction false} HexesRead(words: seq<Word>)
    ensures GroupsOf(Hexes(words)) == Some(words)
  {
    if words != [] {
      assert Hexes(words)[1..] == Hexes(words[1..]);
      HexReads(words[0]);
      HexesRead(words[1..]);
      assert words == [words[0]] + words[1..];
    }
  }

  lemma JoinedReads(words: seq<Word>)
    ensures Groups(Joined(words)) == Some(words)
  {
    if words == [] {
      EmptyJoined();
    } else {
      forall p | p in Hexes(words) ensures Lacks(p, ':') {
        var k :| 0 <= k < |words| && p == Hexes(words)[k];
        HexLacks(words[k], ':');
      }
      SplitJoined(Hexes(words), ':');
      HexesRead(words);
      JoinedShape(words);
    }
  }

  /** No `::` inside, nor a colon at either end. */
  predicate Single(s: string) {
    && (forall k :: 0 <= k < |s| - 1 ==> !(s[k] == s[k + 1] == ':'))
    && (s != "" ==> s[0] != ':' && s[|s| - 1] != ':')
  }

  lemma {:induction false} JoinedShape(words: seq<Word>)
    ensures Single(Joined(words)) && (words != [] ==> Joined(words) != "") && Lacks(Joined(words), '.')
  {
    if words == [] {
      EmptyJoined();
    } else {
      var front, w := words[..|words| - 1], words[|words| - 1];
      assert words == front + [w];
      JoinedNext(front, w);
      JoinedShape(front);
      HexLacks(w, ':');
      HexLacks(w, '.');
      SingleHex(Joined(front), Hex(w));
    }
  }

  lemma SingleHex(front: string, hex: string)
    requires Single(front) && Lacks(front, '.') && hex != "" && Lacks(hex, ':') && Lacks(hex, '.')
    ensures Single(hex)
    ensures front != "" ==> Single(front + ":" + hex) && Lacks(front + ":" + hex, '.')
  {
    if front != "" {
      var s := front + ":" + hex;
      forall k | 0 <= k < |s| - 1 ensures !(s[k] == s[k + 1] == ':') {
        if k >= |front| {
          assert s[k + 1] == hex[k - |front|];
        }
      }
    }
  }

  // ------------------------------------------------------------------ the double colon

  lemma {:induction false} SplitNone(s: string)
    requires Single(s)
    ensures SplitDouble(s) == [s]
  {
    SplitAtNone(s, 0);
    assert s[0..] == s;
  }

  lemma {:induction false} SplitAtNone(s: string, k: nat)
    requires Single(s) && k <= |s|
    ensures SplitDouble(s[k..]) == [s[k..]]
    decreases |s| - k
  {
    if k < |s| {
      assert s[k..][1..] == s[k + 1..] && [s[k]] + s[k + 1..] == s[k..];
      SplitAtNone(s, k + 1);
    }
  }

  lemma {:induction false} SplitTwo(a: string, b: string)
    requires Single(a) && Single(b)
    ensures SplitDouble(a + "::" + b) == [a, b]
  {
    SplitAtTwo(a, b, 0);
    assert a[0..] == a;
  }

  lemma {:induction false} SplitAtTwo(a: string, b: string, k: nat)
    requires Single(a) && Single(b) && k <= |a|
    ensures SplitDouble(a[k..] + "::" + b) == [a[k..], b]
    decreases |a| - k
  {
    var s := a[k..] + "::" + b;
    if k == |a| {
      assert s == "::" + b && s[2..] == b;
      SplitNone(b);
    } else {
      assert s[1..] == a[k + 1..] + "::" + b;
      assert s[1] == if k + 1 < |a| then a[k + 1] else ':';
      assert k + 1 == |a| ==> a[k] != ':';
      SplitAtTwo(a, b, k + 1);
      assert [s[0]] + a[k + 1..] == a[k..];
    }
  }

  // ------------------------------------------------------------------ the dotted tail

  lemma NotDotted(text: string)
    requires Lacks(text, '.')
    ensures !IsDotted(text)
  {
    var k := LastIndexOf(text, ':');
    if k >= 0 {
      SplitWhole(text[k + 1..], '.');
    }
  }

  function QuadParts(words: seq<Word>): seq<string>
    requires |words| == 2
  {
    [Decimal(words[0] / 256), Decimal(words[0] % 256), Decimal(words[1] / 256), Decimal(words[1] % 256)]
  }

  lemma JoinFour(p: seq<string>)
    requires |p| == 4
    ensures JoinWith(p, '.') == p[0] + "." + p[1] + "." + p[2] + "." + p[3]
  {
    assert p[1..][1..] == p[2..] && p[2..][1..] == p[3..] && p[3..] == [p[3]];
    assert JoinWith(p[2..], '.') == p[2] + "." + p[3];
    assert JoinWith(p[1..], '.') == p[1] + "." + (p[2] + "." + p[3]);
    assert p[0] + "." + (p[1] + "." + (p[2] + "." + p[3])) == p[0] + "." + p[1] + "." + p[2] + "." + p[3];
  }

  lemma QuadSplits(words: seq<Word>)
    requires |words| == 2
    ensures Split(Quad(words), '.') == QuadParts(words) && Lacks(Quad(words), ':')
  {
    hide Decimal, Split, JoinWith;
    var p := QuadParts(words);
    DecimalReads(words[0] / 256);
    DecimalReads(words[0] % 256);
    DecimalReads(words[1] / 256);
    DecimalReads(words[1] % 256);
    assert forall k :: 0 <= k < 4 ==> Lacks(p[k], '.') && Lacks(p[k], ':');
    JoinFour(p);
    SplitJoined(p, '.');
    FourLack(p[0], p[1], p[2], p[3]);
  }

  lemma FourLack(a: string, b: string, c: string, d: string)
    requires Lacks(a, ':') && Lacks(b, ':') && Lacks(c, ':') && Lacks(d, ':')
    ensures Lacks(a + "." + b + "." + c + "." + d, ':')
  {
  }

  lemma QuadReads(words: seq<Word>)
    requires |words| == 2
    ensures IsQuad(Quad(words))
    ensures IPv4(Quad(words)) == Some([words[0] / 256, words[0] % 256, words[1] / 256, words[1] % 256])
  {
    hide Decimal, Split, Quad, Value, Digits, Parts;
    QuadSplits(words);
    FourRead(words[0] / 256, words[0] % 256, words[1] / 256, words[1] % 256);
  }

  lemma FourRead(a: Octet, b: Octet, c: Octet, d: Octet)
    ensures Parts([Decimal(a), Decimal(b), Decimal(c), Decimal(d)]) == Some([a, b, c, d])
    ensures forall p <- [Decimal(a), Decimal(b), Decimal(c), Decimal(d)] :: 1 <= |p| <= 3 && Digits(p, 10)
  {
    hide Decimal, Value, Digits, Parts, IsPart;
    var p := [Decimal(a), Decimal(b), Decimal(c), Decimal(d)];
    DecimalReads(a);
    DecimalReads(b);
    DecimalReads(c);
    DecimalReads(d);
    assert p[1..] == [Decimal(b), Decimal(c), Decimal(d)] && p[1..][1..] == [Decimal(c), Decimal(d)];
    assert [Decimal(c), Decimal(d)][1..] == [Decimal(d)] && [Decimal(d)][1..] == [];
    PartsOne([Decimal(d)], d);
    PartsOne([Decimal(c), Decimal(d)], c);
    PartsOne(p[1..], b);
    PartsOne(p, a);
    assert [d] + [] == [d] && [c] + [d] == [c, d] && [b] + [c, d] == [b, c, d] && [a] + [b, c, d] == [a, b, c, d];
    assert Parts([Decimal(d)]) == Some([d]);
    assert Parts([Decimal(c), Decimal(d)]) == Some([c, d]);
    assert Parts(p[1..]) == Some([b, c, d]);
  }

  lemma PartsOne(parts: seq<string>, b: Octet)
    requires parts != [] && parts[0] == Decimal(b)
    ensures Parts(parts) == After([b], Parts(parts[1..])) && Parts([]) == Some([])
  {
    hide Decimal;
    DecimalReads(b);
  }

  /** An address with a quad after a colon is read as what is before it with the quad's words. */
  lemma DottedReads(before: string, words: seq<Word>)
    requires |words| == 2
    ensures IPv6(before + ":" + Quad(words))
         == Assembled(SplitDouble(if EndsWith(before + ":", "::") then before + ":" else before), words)
  {
    hide Quad, SplitDouble, Assembled, IPv4, IsQuad, LastIndexOf;
    var text := before + ":" + Quad(words);
    QuadSplits(words);
    QuadReads(words);
    LastIndexIs(before, ':', Quad(words));
    assert text[|before| + 1..] == Quad(words);
    assert text[..|before| + 1] == before + ":";
    assert (before + ":")[..|before + ":"| - 1] == before;
    assert Pair(words[0] / 256, words[0] % 256) == words[0] && Pair(words[1] / 256, words[1] % 256) == words[1];
    assert [words[0], words[1]] == words;
  }

  // ------------------------------------------------------------------ the round trip

  lemma PlainRoundTrip(words: seq<Word>)
    requires |words| == 8
    ensures IPv6(Printed(words, -1, 0)) == Some(words)
  {
    JoinedShape(words);
    NotDotted(Joined(words));
    SplitNone(Joined(words));
    JoinedReads(words);
    assert words + Zeros(0) + [] + [] == words;
  }

  lemma CompressedRoundTrip(words: seq<Word>, base: int, len: nat)
    requires |words| == 8 && ZeroRun(words, base, len) && len > 0 && !Mapped(words, base, len)
    ensures IPv6(Printed(words, base, len)) == Some(words)
  {
    hide Joined, Groups, SplitDouble, IsDotted;
    var before, after := words[..base], words[base + len..];
    var text := Joined(before) + "::" + Joined(after);
    JoinedShape(before);
    JoinedShape(after);
    NotDotted(text);
    SplitTwo(Joined(before), Joined(after));
    JoinedReads(before);
    JoinedReads(after);
    Pieces(words, base, len);
  }

  lemma Pieces(words: seq<Word>, base: int, len: nat)
    requires ZeroRun(words, base, len)
    ensures words == words[..base] + Zeros(len) + words[base + len..] + []
  {
  }

  lemma MappedRoundTrip(words: seq<Word>, len: nat)
    requires |words| == 8 && ZeroRun(words, 0, len) && Mapped(words, 0, len)
    ensures IPv6(Printed(words, 0, len)) == Some(words)
  {
    hide Joined, Groups, SplitDouble, IPv6, Quad, Hex;
    assert words[..0] == [];
    EmptyJoined();
    JoinedReads([]);
    var last := words[6..];
    if len == 6 {
      DottedReads(":", last);
      assert Printed(words, 0, 6) == ":" + ":" + Quad(last);
      SplitTwo("", "");
      assert "" + "::" + "" == "::";
      assert words == [] + Zeros(6) + [] + last;
      assert Assembled(["", ""], last) == Some(words);
    } else {
      DottedReads("::ffff", last);
      assert ("::ffff" + ":")[5] == 'f';
      assert Printed(words, 0, 5) == "::ffff" + ":" + Quad(last);
      Ffff();
      JoinedNext([], 0xffff);
      assert [] + [0xffff as Word] == [0xffff as Word];
      assert Joined([0xffff]) == "ffff";
      JoinedShape([0xffff]);
      JoinedReads([0xffff]);
      SplitTwo("", "ffff");
      assert "" + "::" + "ffff" == "::ffff";
      assert words == [] + Zeros(5) + [0xffff] + last;
      assert Assembled(["", "ffff"], last) == Some(words);
    }
  }

  /** Every address reads back from its text, the dotted forms too. */
  lemma TextReadsBack(words: seq<Word>, base: int, len: nat)
    requires |words| == 8 && Longest(words, base, len)
    ensures IPv6(Printed(words, base, len)) == Some(words)
  {
    if base == -1 {
      PlainRoundTrip(words);
    } else if Mapped(words, base, len) {
      MappedRoundTrip(words, len);
    } else {
      CompressedRoundTrip(words, base, len);
    }
  }

  lemma {:induction false} OctetsReadBack(bytes: seq<Octet>)
    requires |bytes| % 2 == 0
    ensures OctetsOf(WordsOf(bytes)) == bytes
  {
    if bytes != [] {
      OctetsReadBack(bytes[2..]);
      PairParts(bytes[0], bytes[1]);
      assert WordsOf(bytes)[1..] == WordsOf(bytes[2..]);
      assert bytes == [bytes[0], bytes[1]] + bytes[2..];
    }
  }

  /** Sixteen bytes printed and read are the same sixteen bytes. */
  method PrintAndRead(bytes: seq<Octet>) returns (back: Option<seq<Octet>>)
    requires |bytes| == 16
    ensures back == Some(bytes)
  {
    var text := IPv6Text(bytes);
    ghost var base, len: nat :| Longest(WordsOf(bytes), base, len) && text == Printed(WordsOf(bytes), base, len);
    TextReadsBack(WordsOf(bytes), base, len);
    OctetsReadBack(bytes);
    back := IPv6Bytes(text);
  }
}
