/** UTF-16 code units and code points: ucs2decode and String.fromCodePoint of the embedded punycode library. */
module Ucs2 {

  type Unit = u: int | 0 <= u < 0x1_0000
  type CodePoint = c: int | 0 <= c <= 0x10_FFFF

  predicate High(c: int) { 0xD800 <= c <= 0xDBFF }

  predicate Low(c: int) { 0xDC00 <= c <= 0xDFFF }

  function Combine(high: Unit, low: Unit): CodePoint
    requires High(high) && Low(low)
  {
    high % 0x400 * 0x400 + low % 0x400 + 0x1_0000
  }

  /** The code points a string shows: a surrogate pair is one, an unmatched surrogate is itself. */
  function Points(s: seq<Unit>): seq<CodePoint> {
    if s == [] then []
    else if |s| >= 2 && High(s[0]) && Low(s[1]) then [Combine(s[0], s[1])] + Points(s[2..])
    else [s[0]] + Points(s[1..])
  }

  function UnitsOf(c: CodePoint): seq<Unit> {
    if c < 0x1_0000 then [c] else [0xD800 + (c - 0x1_0000) / 0x400, 0xDC00 + (c - 0x1_0000) % 0x400]
  }

  /** String.fromCodePoint over an array. */
  function Units(points: seq<CodePoint>): seq<Unit> {
    if points == [] then [] else UnitsOf(points[0]) + Units(points[1..])
  }

  /** No code points that would read back as a surrogate pair. */
  ghost predicate Unpaired(points: seq<CodePoint>) {
    forall i :: 0 <= i < |points| - 1 ==> !(High(points[i]) && Low(points[i + 1]))
  }

  method Decode(text: seq<Unit>) returns (output: seq<CodePoint>)
    ensures output == Points(text)
  {
    output := [];
    var counter := 0;
    while counter < |text|
      invariant counter <= |text|
      invariant Points(text) == output + Points(text[counter..])
    {
      ghost var from := counter;
      var value := text[counter];
      counter := counter + 1;
      if High(value) && counter < |text| {
        var extra := text[counter];
        counter := counter + 1;
        if Low(extra) {
          PointsStep(text, from, output);
          output := output + [Combine(value, extra)];
        } else {
          PointsStep(text, from, output);
          output := output + [value];
          counter := counter - 1;
        }
      } else {
        PointsStep(text, from, output);
        output := output + [value];
      }
    }
  }

  lemma PointsStep(text: seq<Unit>, at: nat, output: seq<CodePoint>)
    requires at < |text| && Points(text) == output + Points(text[at..])
    ensures if at + 1 < |text| && High(text[at]) && Low(text[at + 1])
            then Points(text) == output + [Combine(text[at], text[at + 1])] + Points(text[at + 2..])
            else Points(text) == output + [text[at]] + Points(text[at + 1..])
  {
    var from := text[at..];
    if at + 1 < |text| && High(text[at]) && Low(text[at + 1]) {
      assert from[2..] == text[at + 2..];
    } else {
      assert from[1..] == text[at + 1..];
    }
  }

  /** ucs2.encode undoes ucs2.decode on every string, lone surrogates included. */
  lemma {:induction false} UnitsOfPoints(s: seq<Unit>)
    ensures Units(Points(s)) == s
  {
    if s == [] {
    } else if |s| >= 2 && High(s[0]) && Low(s[1]) {
      UnitsOfPoints(s[2..]);
      assert s == [s[0], s[1]] + s[2..];
    } else {
      UnitsOfPoints(s[1..]);
      assert s == [s[0]] + s[1..];
    }
  }

  lemma PointsOfOne(c: CodePoint, rest: seq<Unit>)
    requires High(c) ==> rest == [] || !Low(rest[0])
    ensures Points(UnitsOf(c) + rest) == [c] + Points(rest)
  {
    var s := UnitsOf(c) + rest;
    if c < 0x1_0000 {
      assert s[1..] == rest;
    } else {
      assert s[2..] == rest;
      assert Combine(s[0], s[1]) == c;
    }
  }

  lemma {:induction false} PointsOfUnpaired(points: seq<CodePoint>)
    requires Unpaired(points)
    ensures Points(Units(points)) == points
  {
    if points != [] {
      PointsOfUnpaired(points[1..]);
      PointsOfOne(points[0], Units(points[1..]));
    }
  }

  lemma {:induction false} NeverPairs(s: seq<Unit>)
    ensures Unpaired(Points(s))
  {
    if s == [] {
    } else if |s| >= 2 && High(s[0]) && Low(s[1]) {
      NeverPairs(s[2..]);
    } else {
      NeverPairs(s[1..]);
    }
  }

  /** The other way holds exactly for code points in which no lone high surrogate precedes a lone low one. */
  lemma PointsOfUnits(points: seq<CodePoint>)
    ensures Points(Units(points)) == points <==> Unpaired(points)
  {
    if Unpaired(points) {
      PointsOfUnpaired(points);
    } else {
      NeverPairs(Units(points));
    }
  }
}
