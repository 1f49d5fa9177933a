/** Which texts are addresses, and which address each of them is. */
module HostAddressForms {
  import opened Wrappers
  import opened Strings
  import opened Numerals
  import opened HostAddresses
  import opened HostAddressRoundTrip

  // ------------------------------------------------------------------ digits

  /** The hexadecimal digits, in either case, and what each is worth. */
  lemma HexDigitsAre(k: nat)
    requires k < 16
    ensures IsHex("0123456789abcdef"[k]) && DigitValue("0123456789abcdef"[k]) == k
    ensures IsHex("0123456789ABCDEF"[k]) && DigitValue("0123456789ABCDEF"[k]) == k
  {
  }

  lemma NothingElseIsHex(c: char)
    requires IsHex(c)
    ensures c == "0123456789abcdef"[DigitValue(c)] || c == "0123456789ABCDEF"[DigitValue(c)]
  {
  }

  /** A group is worth what its digits are in sixteens, leading zeros and all. */
  lemma GroupIs(s: string)
    requires IsGroup(s)
    ensures |s| == 1 ==> GroupValue(s) == DigitValue(s[0])
    ensures |s| == 2 ==> GroupValue(s) == 16 * DigitValue(s[0]) + DigitValue(s[1])
    ensures |s| == 3 ==> GroupValue(s) == 256 * DigitValue(s[0]) + 16 * DigitValue(s[1]) + DigitValue(s[2])
    ensures |s| == 4 ==>
              GroupValue(s) == 4096 * DigitValue(s[0]) + 256 * DigitValue(s[1]) + 16 * DigitValue(s[2]) + DigitValue(s[3])
  {
    hide DigitValue;
    if |s| > 1 { ValueStep(s); }
    if |s| > 2 { ValueStep(s[..|s| - 1]); }
    if |s| > 3 { ValueStep(s[..|s| - 2]); }
    assert s[..1][..0] == [];
    assert Value(s[..1], 16) == DigitValue(s[0]);
    assert s[..|s|] == s;
  }

  lemma ValueStep(s: string)
    requires Digits(s, 16) && |s| > 1
    ensures Value(s, 16) == 16 * Value(s[..|s| - 1], 16) + DigitValue(s[|s| - 1])
    ensures forall k :: 0 <= k <= |s| - 1 ==> s[..|s| - 1][..k] == s[..k]
  {
  }

  // ------------------------------------------------------------------ dotted quads

  lemma {:induction false} ValuePositive(s: string)
    requires s != "" && Digits(s, 10) && s[0] != '0'
    ensures Value(s, 10) > 0
  {
    if |s| == 1 {
      assert s[..0] == [];
    } else {
      ValuePositive(s[..|s| - 1]);
    }
  }

  lemma {:induction false} DecimalDigit(c: char)
    requires IsHex(c) && DigitValue(c) < 10
    ensures Digit(DigitValue(c)) == c
  {
  }

  /** A number without leading zeros is the one way to write its value. */
  lemma {:induction false} WrittenOneWay(s: string)
    requires s != "" && Digits(s, 10) && (s[0] != '0' || |s| == 1)
    ensures Numeral(Value(s, 10), 10) == s
  {
    var front, last := s[..|s| - 1], s[|s| - 1];
    DecimalDigit(last);
    assert s == front + [last];
    if |s| == 1 {
      assert front == [];
    } else {
      ValuePositive(front);
      WrittenOneWay(front);
      var v, d := Value(front, 10), DigitValue(last);
      assert Value(s, 10) == 10 * v + d;
      assert (10 * v + d) / 10 == v && (10 * v + d) % 10 == d;
    }
  }

  lemma PartIs(s: string)
    ensures IsPart(s) && Value(s, 10) <= 255 <==> exists b: Octet :: s == Decimal(b)
  {
    if IsPart(s) && Value(s, 10) <= 255 {
      WrittenOneWay(s);
      var b: Octet := Value(s, 10);
      assert s == Decimal(b);
    }
    if b: Octet :| s == Decimal(b) {
      DecimalReads(b);
    }
  }

  lemma {:induction false} SplitBack(s: string, c: char)
    ensures JoinWith(Split(s, c), c) == s
  {
    if s != [] {
      var rest := Split(s[1..], c);
      SplitBack(s[1..], c);
      var whole := Split(s, c);
      if s[0] == c {
        assert whole[1..] == rest && whole[0] == [];
        assert JoinWith(whole, c) == [] + [c] + JoinWith(rest, c);
      } else {
        assert whole[1..] == rest[1..] && whole[0] == [s[0]] + rest[0];
        if |rest| == 1 {
          assert JoinWith(whole, c) == whole[0];
        } else {
          assert JoinWith(whole, c) == [s[0]] + rest[0] + [c] + JoinWith(rest[1..], c);
          assert JoinWith(rest, c) == rest[0] + [c] + JoinWith(rest[1..], c);
        }
      }
      assert s == [s[0]] + s[1..];
    }
  }

  function Dotted(a: Octet, b: Octet, c: Octet, d: Octet): string {
    Decimal(a) + "." + Decimal(b) + "." + Decimal(c) + "." + Decimal(d)
  }

  lemma DottedIs(a: Octet, b: Octet, c: Octet, d: Octet)
    ensures var parts := [Decimal(a), Decimal(b), Decimal(c), Decimal(d)];
      JoinWith(parts, '.') == Dotted(a, b, c, d) && Split(Dotted(a, b, c, d), '.') == parts
  {
    hide Decimal, JoinWith, Split;
    var parts := [Decimal(a), Decimal(b), Decimal(c), Decimal(d)];
    DecimalReads(a);
    DecimalReads(b);
    DecimalReads(c);
    DecimalReads(d);
    JoinFour(parts);
    SplitJoined(parts, '.');
  }

  lemma DottedReadsBack(a: Octet, b: Octet, c: Octet, d: Octet)
    ensures IPv4(Dotted(a, b, c, d)) == Some([a, b, c, d])
  {
    hide Decimal, Split, Parts, Dotted, JoinWith;
    DottedIs(a, b, c, d);
    FourRead(a, b, c, d);
  }

  lemma ReadIsDotted(text: string, four: seq<Octet>)
    requires IPv4(text) == Some(four)
    ensures |four| == 4 && text == Dotted(four[0], four[1], four[2], four[3])
  {
    hide Decimal, Split, Parts, Dotted, JoinWith;
    DottedIs(four[0], four[1], four[2], four[3]);
    SplitBack(text, '.');
    FourAre(Split(text, '.'), four);
    assert Split(text, '.') == [Decimal(four[0]), Decimal(four[1]), Decimal(four[2]), Decimal(four[3])];
  }

  /** The IPv4 addresses are the four bytes' own decimals with dots between them, and no other text. */
  lemma IPv4Exactly(text: string, four: seq<Octet>)
    ensures IPv4(text) == Some(four) <==> |four| == 4 && text == Dotted(four[0], four[1], four[2], four[3])
  {
    hide IPv4, Dotted;
    if IPv4(text) == Some(four) {
      ReadIsDotted(text, four);
    }
    if |four| == 4 {
      DottedReadsBack(four[0], four[1], four[2], four[3]);
      assert four == [four[0], four[1], four[2], four[3]];
    }
  }

  lemma FourAre(parts: seq<string>, four: seq<Octet>)
    requires |parts| == 4 && |four| == 4 && Parts(parts) == Some(four)
    ensures forall k :: 0 <= k < 4 ==> parts[k] == Decimal(four[k])
  {
    hide Decimal, Value, IsPart;
    PartTaken(parts, four);
    PartTaken(parts[1..], four[1..]);
    PartTaken(parts[2..], four[2..]);
    PartTaken(parts[3..], four[3..]);
    assert parts[1..][1..] == parts[2..] && parts[2..][1..] == parts[3..];
    assert four[1..][1..] == four[2..] && four[2..][1..] == four[3..];
  }

  lemma PartTaken(parts: seq<string>, out: seq<Octet>)
    requires parts != [] && Parts(parts) == Some(out)
    ensures out != [] && parts[0] == Decimal(out[0]) && Parts(parts[1..]) == Some(out[1..])
  {
    PartIs(parts[0]);
    if b: Octet :| parts[0] == Decimal(b) { DecimalReads(b); }
  }

  // ------------------------------------------------------------------ groups and the double colon

  predicate AreGroups(parts: seq<string>) {
    forall k :: 0 <= k < |parts| ==> IsGroup(parts[k])
  }

  function Values(parts: seq<string>): (words: seq<Word>)
    requires AreGroups(parts)
    ensures |words| == |parts| && forall k :: 0 <= k < |parts| ==> words[k] == GroupValue(parts[k])
  {
    seq(|parts|, k requires 0 <= k < |parts| => GroupValue(parts[k]))
  }

  lemma {:induction false} GroupsTaken(parts: seq<string>)
    requires AreGroups(parts)
    ensures GroupsOf(parts) == Some(Values(parts))
  {
    hide IsGroup, GroupValue;
    if parts != [] {
      assert IsGroup(parts[0]);
      assert forall k :: 0 <= k < |parts[1..]| ==> parts[1..][k] == parts[k + 1];
      GroupsTaken(parts[1..]);
      assert Values(parts) == [GroupValue(parts[0])] + Values(parts[1..]);
    }
  }

  lemma GroupLacks(s: string)
    requires IsGroup(s)
    ensures Lacks(s, ':') && Lacks(s, '.') && s != ""
  {
  }

  lemma {:induction false} GroupsShape(parts: seq<string>)
    requires AreGroups(parts)
    ensures Single(JoinWith(parts, ':')) && Lacks(JoinWith(parts, ':'), '.') && (parts != [] ==> JoinWith(parts, ':') != "")
  {
    hide IsGroup;
    if parts != [] {
      var front, last := parts[..|parts| - 1], parts[|parts| - 1];
      assert parts == front + [last] && IsGroup(last);
      assert AreGroups(front);
      JoinNext(front, last);
      GroupsShape(front);
      GroupLacks(last);
      SingleHex(JoinWith(front, ':'), last);
    }
  }

  lemma GroupsRead(parts: seq<string>)
    requires AreGroups(parts)
    ensures Groups(JoinWith(parts, ':')) == Some(Values(parts))
  {
    hide IsGroup, GroupValue;
    if parts == [] {
      assert Values(parts) == [];
    } else {
      forall p | p in parts ensures Lacks(p, ':') {
        var k :| 0 <= k < |parts| && p == parts[k];
        GroupLacks(p);
      }
      GroupsShape(parts);
      SplitJoined(parts, ':');
      GroupsTaken(parts);
    }
  }

  lemma PlainIs(text: string)
    requires Lacks(text, '.')
    ensures IPv6(text) == Assembled(SplitDouble(text), [])
  {
    NotDotted(text);
    hide SplitDouble, Assembled, IsDotted;
  }

  lemma AssembledOne(h: string, head: seq<Word>)
    requires Groups(h) == Some(head)
    ensures Assembled([h], []) == if |head| == 8 then Some(head) else None
  {
    hide Groups;
    assert |head| == 8 ==> head + Zeros(0) + [] + [] == head;
  }

  lemma AssembledTwo(h: string, b: string, head: seq<Word>, back: seq<Word>, tail: seq<Word>)
    requires Groups(h) == Some(head) && Groups(b) == Some(back)
    ensures Assembled([h, b], tail) == if |head| + |back| + |tail| > 7 then None
                                       else Some(head + Zeros(8 - |head| - |back| - |tail|) + back + tail)
  {
    hide Groups, Zeros;
  }

  /** Eight groups with colons between them are their words; any other number of them is no address. */
  lemma WrittenOut(parts: seq<string>)
    requires AreGroups(parts)
    ensures IPv6(JoinWith(parts, ':')) == if |parts| == 8 then Some(Values(parts)) else None
  {
    hide *;
    GroupsShape(parts);
    PlainIs(JoinWith(parts, ':'));
    SplitNone(JoinWith(parts, ':'));
    GroupsRead(parts);
    AssembledOne(JoinWith(parts, ':'), Values(parts));
  }

  /** A `::` stands for the words missing between its two sides, one at the least. */
  lemma DoubleColon(head: seq<string>, back: seq<string>)
    requires AreGroups(head) && AreGroups(back)
    ensures IPv6(JoinWith(head, ':') + "::" + JoinWith(back, ':'))
         == if |head| + |back| <= 7 then Some(Values(head) + Zeros(8 - |head| - |back|) + Values(back)) else None
  {
    hide *;
    var (h, b) := (JoinWith(head, ':'), JoinWith(back, ':'));
    GroupsShape(head);
    GroupsShape(back);
    TwoLack(h, b);
    PlainIs(h + "::" + b);
    SplitTwo(h, b);
    GroupsRead(head);
    GroupsRead(back);
    AssembledTwo(h, b, Values(head), Values(back), []);
    if |head| + |back| <= 7 {
      var words := Values(head) + Zeros(8 - |head| - |back|) + Values(back);
      assert words + [] == words;
    }
  }

  lemma TwoLack(h: string, b: string)
    requires Lacks(h, '.') && Lacks(b, '.')
    ensures Lacks(h + "::" + b, '.')
  {
  }

  lemma QuadAfter(h: string, b: string, last: seq<Word>)
    requires Single(b) && |last| == 2
    ensures IPv6(h + "::" + (if b == "" then "" else b + ":") + Quad(last)) == Assembled(SplitDouble(h + "::" + b), last)
  {
    hide IsDotted, SplitDouble, Quad, IPv6, Assembled, Single, EndsWith;
    var before := if b == "" then h + ":" else h + "::" + b;
    assert before + ":" + Quad(last) == h + "::" + (if b == "" then "" else b + ":") + Quad(last);
    DottedReads(before, last);
    EndsInColons(h, b);
  }

  /** The last two words may be a dotted quad, after what stands for the other six. */
  lemma QuadLast(head: seq<string>, back: seq<string>, last: seq<Word>)
    requires AreGroups(head) && AreGroups(back) && |last| == 2
    ensures IPv6(JoinWith(head, ':') + "::" + (if back == [] then "" else JoinWith(back, ':') + ":") + Quad(last))
         == if |head| + |back| <= 5 then Some(Values(head) + Zeros(6 - |head| - |back|) + Values(back) + last) else None
  {
    hide *;
    GroupsShape(head);
    GroupsShape(back);
    var (h, b) := (JoinWith(head, ':'), JoinWith(back, ':'));
    assert back == [] <==> b == "" by { NothingJoined(); }
    QuadAfter(h, b, last);
    SplitTwo(h, b);
    GroupsRead(head);
    GroupsRead(back);
    AssembledTwo(h, b, Values(head), Values(back), last);
  }

  lemma NothingJoined()
    ensures JoinWith([], ':') == ""
  {
  }

  lemma EndsInColons(h: string, b: string)
    requires Single(b)
    ensures b == "" ==> EndsWith(h + ":" + ":", "::") && h + ":" + ":" == h + "::" + b
    ensures b != "" ==> !EndsWith(h + "::" + b + ":", "::")
  {
    if b == "" {
      assert (h + ":" + ":")[|h|..] == "::";
    } else {
      var s := h + "::" + b + ":";
      assert s[|s| - 2] == b[|b| - 1] != ':';
      assert s[|s| - 2..][0] == s[|s| - 2];
    }
  }

  // ------------------------------------------------------------------ which addresses are printed with a quad

  /** The last two words are printed dotted exactly where the first six are zero and no more, or five and then ffff. */
  lemma MappedIs(words: seq<Word>, base: int, len: nat)
    requires |words| == 8 && Longest(words, base, len)
    ensures Mapped(words, base, len) <==>
              (forall k :: 0 <= k < 5 ==> words[k] == 0) && ((words[5] == 0 && words[6] != 0) || words[5] == 0xffff)
  {
    if Mapped(words, base, len) {
      assert len == 6 && words[6] == 0 ==> ZeroRun(words, 0, 7);
    }
    if (forall k :: 0 <= k < 5 ==> words[k] == 0) && ((words[5] == 0 && words[6] != 0) || words[5] == 0xffff) {
      var n := if words[5] == 0 then 6 else 5;
      assert ZeroRun(words, 0, n);
      assert words[n] != 0;
      forall b, m: nat | ZeroRun(words, b, m) ensures m < n || (m == n && 0 <= b) {
      }
      assert Longest(words, 0, n);
      LongestIsOne(words, base, len, 0, n);
    }
  }

  /** An IPv4 address mapped into IPv6 is printed as `::ffff:` and its quad, a compatible one as `::` and its quad. */
  lemma QuadPrinted(words: seq<Word>, base: int, len: nat, a: Octet, b: Octet, c: Octet, d: Octet)
    requires |words| == 8 && Longest(words, base, len) && words[6] == Pair(a, b) && words[7] == Pair(c, d)
    requires forall k :: 0 <= k < 5 ==> words[k] == 0
    ensures words[5] == 0xffff ==> Printed(words, base, len) == "::ffff:" + Dotted(a, b, c, d)
    ensures words[5] == 0 && words[6] != 0 ==> Printed(words, base, len) == "::" + Dotted(a, b, c, d)
  {
    MappedIs(words, base, len);
    PairParts(a, b);
    PairParts(c, d);
    if Mapped(words, base, len) {
      assert words[..0] == [];
      EmptyJoined();
      hide Longest, Joined, Decimal;
      assert Quad(words[6..]) == Dotted(a, b, c, d);
      assert "::" + ("ffff:" + Dotted(a, b, c, d)) == "::ffff:" + Dotted(a, b, c, d);
    }
  }

  /** No other address has a dot in its text. */
  lemma NoQuadPrinted(words: seq<Word>, base: int, len: nat)
    requires |words| == 8 && Longest(words, base, len)
    requires (exists k :: 0 <= k < 5 && words[k] != 0)
          || (words[5] != 0 && words[5] != 0xffff) || (words[5] == 0 && words[6] == 0)
    ensures Lacks(Printed(words, base, len), '.')
  {
    MappedIs(words, base, len);
    hide Longest, Joined;
    if base == -1 {
      JoinedShape(words);
    } else {
      JoinedShape(words[..base]);
      JoinedShape(words[base + len..]);
    }
  }
}
