/**
 * What punycode's encode and decode compute, on code points. The order of insertion: a code point is placed before
 * another when it is smaller, or equal and earlier in the string; `Kept(ps, n, j)` is the string once every code
 * point below n, and every n before index j, has been placed.
 */
module PunycodeSpec {
  import opened Wrappers
  import opened Ucs2
  import opened Bootstring

  predicate Placed(ps: seq<CodePoint>, n: nat, j: nat, at: nat)
    requires at < |ps|
  {
    ps[at] < n || (ps[at] == n && at < j)
  }

  function Kept(ps: seq<CodePoint>, n: nat, j: nat): (kept: seq<CodePoint>)
    ensures |kept| <= |ps|
  {
    if ps == [] then []
    else
      var last := |ps| - 1;
      Kept(ps[..last], n, j) + if Placed(ps, n, j, last) then [ps[last]] else []
  }

  /** How many placed code points stand before index j. */
  function At(ps: seq<CodePoint>, n: nat, j: nat): nat
    requires j <= |ps|
  {
    |Kept(ps[..j], n, j)|
  }

  lemma {:induction false} KeptPast(ps: seq<CodePoint>, n: nat, j: nat, j': nat)
    requires |ps| <= j && |ps| <= j'
    ensures Kept(ps, n, j) == Kept(ps, n, j')
  {
    if ps != [] {
      KeptPast(ps[..|ps| - 1], n, j, j');
    }
  }

  lemma AtStep(ps: seq<CodePoint>, n: nat, j: nat)
    requires j < |ps|
    ensures At(ps, n, j + 1) == At(ps, n, j) + if ps[j] <= n then 1 else 0
  {
    assert ps[..j + 1][..j] == ps[..j];
    KeptPast(ps[..j], n, j + 1, j);
  }

  lemma {:induction false} AtBound(ps: seq<CodePoint>, n: nat, j: nat)
    requires j <= |ps|
    ensures At(ps, n, j) <= |Kept(ps, n, j)|
  {
    if j == |ps| {
      assert ps[..j] == ps;
    } else {
      var last := |ps| - 1;
      AtBound(ps[..last], n, j);
      assert ps[..last][..j] == ps[..j];
    }
  }

  /** Placing index j inserts its code point where the placed ones before it end. */
  lemma {:induction false} KeptStep(ps: seq<CodePoint>, n: nat, j: nat)
    requires j < |ps|
    ensures At(ps, n, j) <= |Kept(ps, n, j)|
    ensures Kept(ps, n, j + 1)
         == if ps[j] == n then Kept(ps, n, j)[..At(ps, n, j)] + [n] + Kept(ps, n, j)[At(ps, n, j)..]
            else Kept(ps, n, j)
  {
    AtBound(ps, n, j);
    var last := |ps| - 1;
    var at := At(ps, n, j);
    if j == last {
      KeptPast(ps[..last], n, j, j + 1);
    } else {
      KeptStep(ps[..last], n, j);
      assert ps[..last][..j] == ps[..j];
      var shorter := Kept(ps[..last], n, j);
      var tail := if Placed(ps, n, j, last) then [ps[last]] else [];
      AtBound(ps[..last], n, j);
      assert (shorter + tail)[..at] == shorter[..at];
      assert (shorter + tail)[at..] == shorter[at..] + tail;
    }
  }

  lemma {:induction false} KeptRow(ps: seq<CodePoint>, n: nat, j: nat)
    requires |ps| <= j
    ensures Kept(ps, n, j) == Kept(ps, n + 1, 0)
  {
    if ps != [] {
      KeptRow(ps[..|ps| - 1], n, j);
    }
  }

  lemma {:induction false} KeptSkip(ps: seq<CodePoint>, n: nat, m: nat)
    requires n <= m && forall c :: c in ps ==> c < n || m <= c
    ensures Kept(ps, n, 0) == Kept(ps, m, 0)
  {
    if ps != [] {
      var last := |ps| - 1;
      assert ps[last] in ps;
      assert forall c :: c in ps[..last] ==> c in ps;
      KeptSkip(ps[..last], n, m);
    }
  }

  /** Everything has been placed exactly when as many are placed as there are. */
  lemma {:induction false} KeptAll(ps: seq<CodePoint>, n: nat)
    ensures (forall c :: c in ps ==> c < n) ==> Kept(ps, n, 0) == ps
    ensures (exists c :: c in ps && n <= c) ==> |Kept(ps, n, 0)| < |ps|
  {
    if ps != [] {
      var last := |ps| - 1;
      KeptAll(ps[..last], n);
      assert ps == ps[..last] + [ps[last]] && ps[last] in ps;
      assert forall c :: c in ps[..last] ==> c in ps;
      if exists c :: c in ps && n <= c {
        var c :| c in ps && n <= c;
        assert c in ps[..last] || c == ps[last];
      }
    }
  }

  lemma {:induction false} KeptPrefix(ps: seq<CodePoint>, n: nat, j: nat)
    requires j <= |ps|
    ensures |Kept(ps[..j], n, 0)| <= |Kept(ps, n, 0)|
    decreases |ps|
  {
    if j == |ps| {
      assert ps[..j] == ps;
    } else {
      assert ps[..|ps| - 1][..j] == ps[..j];
      KeptPrefix(ps[..|ps| - 1], n, j);
    }
  }

  lemma BelowStep(ps: seq<CodePoint>, n: nat, j: nat)
    requires j < |ps|
    ensures |Kept(ps[..j + 1], n, 0)| == |Kept(ps[..j], n, 0)| + if ps[j] < n then 1 else 0
  {
    assert ps[..j + 1][..j] == ps[..j];
  }

  /** The largest of a decoder's output past the basic code points; INITIAL_N where there is none. */
  function Level(kept: seq<CodePoint>): (n: nat)
    ensures n >= INITIAL_N
    ensures forall c :: c in kept ==> c <= n
    ensures n == INITIAL_N || n in kept
  {
    if kept == [] then INITIAL_N
    else
      var last := |kept| - 1;
      var rest := Level(kept[..last]);
      assert kept == kept[..last] + [kept[last]];
      if kept[last] > rest then kept[last] else rest
  }

  // ------------------------------------------------------------------ encoding

  function Basics(ps: seq<CodePoint>): (units: seq<Unit>)
    ensures units == Kept(ps, INITIAL_N, 0)
    ensures forall u :: u in units ==> u < 0x80
  {
    if ps == [] then []
    else
      var last := |ps| - 1;
      Basics(ps[..last]) + if ps[last] < 0x80 then [ps[last]] else []
  }

  /** The smallest code point not below n, MAX_INT where there is none. */
  function Next(ps: seq<CodePoint>, n: nat): (m: nat)
    ensures forall c :: c in ps && n <= c ==> m <= c
    ensures m == MAX_INT || (m in ps && n <= m)
  {
    if ps == [] then MAX_INT
    else
      var last := |ps| - 1;
      var m := Next(ps[..last], n);
      assert ps == ps[..last] + [ps[last]];
      if n <= ps[last] < m then ps[last] else m
  }

  lemma NextExists(ps: seq<CodePoint>, n: nat)
    requires |Kept(ps, n, 0)| < |ps|
    ensures n <= Next(ps, n) <= 0x10_FFFF && Kept(ps, Next(ps, n), 0) == Kept(ps, n, 0)
  {
    KeptAll(ps, n);
    KeptSkip(ps, n, Next(ps, n));
  }

  function Prepend(units: seq<Unit>, tail: Result<seq<Unit>, Problem>): Result<seq<Unit>, Problem> {
    match tail
    case Ok(more) => Ok(units + more)
    case Err(e) => Err(e)
  }

  /** The decoder's positions from <n, 0> to <m, 0> where it can insert at `out` places. */
  function Steps(n: nat, m: nat, out: nat): nat
    requires n <= m
  {
    (m - n) * out
  }

  /** encode's guard on moving its delta to pass m. */
  predicate TooFar(n: nat, m: nat, delta: nat, out: nat)
    requires out > 0
  {
    m - n > (MAX_INT - delta) / out
  }

  lemma TooFarMeans(n: nat, m: nat, delta: nat, out: nat)
    requires n <= m && out > 0
    ensures TooFar(n, m, delta, out) <==> delta + Steps(n, m, out) > MAX_INT
  {
    DivisionBound(m - n, MAX_INT - delta, out);
  }

  /** The passes from code point n on: `handled` placed of which `basic` are basic, `delta` since the last one. */
  function Row(ps: seq<CodePoint>, n: nat, delta: nat, bias: nat, handled: nat, basic: nat)
    : Result<seq<Unit>, Problem>
    requires n <= 0x11_0000 && handled == |Kept(ps, n, 0)|
    decreases 0x11_0000 - n, |ps| + 1
  {
    if handled >= |ps| then Ok([])
    else
      var m := Next(ps, n);
      NextExists(ps, n);
      if TooFar(n, m, delta, handled + 1) then Err(Overflow)
      else Scan(ps, m, 0, delta + Steps(n, m, handled + 1), bias, handled, handled + 1, basic)
  }

  /** One pass for code point n, from index j. `plus` is the count the pass began with, plus one. */
  function Scan(ps: seq<CodePoint>, n: nat, j: nat, delta: nat, bias: nat, handled: nat, plus: nat, basic: nat)
    : Result<seq<Unit>, Problem>
    requires n <= 0x10_FFFF && j <= |ps| && handled == |Kept(ps, n, j)| && plus > 0
    decreases 0x11_0000 - n, |ps| - j
  {
    if j == |ps| then
      KeptRow(ps, n, j);
      Row(ps, n + 1, delta + 1, bias, handled, basic)
    else
      KeptStep(ps, n, j);
      if ps[j] < n then
        if delta + 1 > MAX_INT then Err(Overflow) else Scan(ps, n, j + 1, delta + 1, bias, handled, plus, basic)
      else if ps[j] == n then
        Prepend(Digits(delta, BASE, bias),
                Scan(ps, n, j + 1, 0, Adapt(delta, plus, handled == basic), handled + 1, plus, basic))
      else Scan(ps, n, j + 1, delta, bias, handled, plus, basic)
  }

  function Header(ps: seq<CodePoint>): seq<Unit> {
    Basics(ps) + if |Basics(ps)| > 0 then [DELIMITER] else []
  }

  /** punycode's encode of a string's code points. */
  function Encoded(ps: seq<CodePoint>): Result<seq<Unit>, Problem> {
    var basic := |Basics(ps)|;
    Prepend(Header(ps), Row(ps, INITIAL_N, 0, INITIAL_BIAS, basic, basic))
  }

  // ------------------------------------------------------------------ decoding

  /** The index of the last delimiter, or -1. */
  function LastDelimiter(text: seq<Unit>): (at: int)
    ensures -1 <= at < |text|
    ensures at >= 0 ==> text[at] == DELIMITER
    ensures forall i :: at < i < |text| ==> text[i] != DELIMITER
  {
    if text == [] then -1
    else if text[|text| - 1] == DELIMITER then |text| - 1
    else LastDelimiter(text[..|text| - 1])
  }

  /** The main decoding loop over the text left, from decoder state <n, i>. */
  function Tail(text: seq<Unit>, n: nat, i: nat, bias: nat, output: seq<nat>): Result<seq<nat>, Problem>
    decreases |text|
  {
    if text == [] then Ok(output)
    else
      match ReadDigits(text, i, 1, BASE, bias)
      case Err(e) => Err(e)
      case Ok(Read(i', rest)) =>
        var out := |output| + 1;
        var n', at := n + Rows(i', out), Column(i', out);
        if n' > MAX_INT then Err(Overflow)
        else Tail(rest, n', at + 1, Adapt(i' - i, out, i == 0), output[..at] + [n'] + output[at..])
  }

  /** The decoder's counter as rows of `out` places and the place in the last one. */
  function Rows(i: nat, out: nat): nat
    requires out > 0
  {
    i / out
  }

  function Column(i: nat, out: nat): (at: nat)
    requires out > 0
    ensures at < out
  {
    i % out
  }

  // ------------------------------------------------------------------ one step of each function above

  lemma RowEnds(ps: seq<CodePoint>, n: nat, delta: nat, bias: nat, handled: nat, basic: nat)
    requires n <= 0x11_0000 && handled == |Kept(ps, n, 0)| && handled >= |ps|
    ensures Row(ps, n, delta, bias, handled, basic) == Ok([])
  {
  }

  lemma RowStarts(ps: seq<CodePoint>, n: nat, delta: nat, bias: nat, handled: nat, basic: nat)
    requires n <= 0x11_0000 && handled == |Kept(ps, n, 0)| && handled < |ps|
    ensures n <= Next(ps, n) <= 0x10_FFFF && handled == |Kept(ps, Next(ps, n), 0)|
    ensures Row(ps, n, delta, bias, handled, basic)
         == if TooFar(n, Next(ps, n), delta, handled + 1) then Err(Overflow)
            else Scan(ps, Next(ps, n), 0, delta + Steps(n, Next(ps, n), handled + 1), bias, handled, handled + 1, basic)
  {
    hide TooFar, Steps;
    NextExists(ps, n);
  }

  lemma ScanEnds(ps: seq<CodePoint>, n: nat, delta: nat, bias: nat, handled: nat, plus: nat, basic: nat)
    requires n <= 0x10_FFFF && handled == |Kept(ps, n, |ps|)| && plus > 0
    ensures handled == |Kept(ps, n + 1, 0)|
    ensures Scan(ps, n, |ps|, delta, bias, handled, plus, basic) == Row(ps, n + 1, delta + 1, bias, handled, basic)
  {
    KeptRow(ps, n, |ps|);
  }

  lemma ScanPlaces(ps: seq<CodePoint>, n: nat, j: nat, delta: nat, bias: nat, handled: nat, plus: nat, basic: nat)
    requires n <= 0x10_FFFF && j < |ps| && handled == |Kept(ps, n, j)| && plus > 0 && ps[j] == n
    ensures |Kept(ps, n, j + 1)| == handled + 1
    ensures Scan(ps, n, j, delta, bias, handled, plus, basic)
         == Prepend(Digits(delta, BASE, bias),
                    Scan(ps, n, j + 1, 0, Adapt(delta, plus, handled == basic), handled + 1, plus, basic))
  {
    KeptStep(ps, n, j);
  }

  lemma ScanPasses(ps: seq<CodePoint>, n: nat, j: nat, delta: nat, bias: nat, handled: nat, plus: nat, basic: nat)
    requires n <= 0x10_FFFF && j < |ps| && handled == |Kept(ps, n, j)| && plus > 0 && ps[j] != n
    ensures handled == |Kept(ps, n, j + 1)|
    ensures Scan(ps, n, j, delta, bias, handled, plus, basic)
         == if ps[j] > n then Scan(ps, n, j + 1, delta, bias, handled, plus, basic)
            else if delta + 1 > MAX_INT then Err(Overflow)
            else Scan(ps, n, j + 1, delta + 1, bias, handled, plus, basic)
  {
    KeptStep(ps, n, j);
  }

  lemma TailEnds(text: seq<Unit>, n: nat, i: nat, bias: nat, output: seq<nat>)
    requires text == []
    ensures Tail(text, n, i, bias, output) == Ok(output)
  {
  }

  lemma TailFails(text: seq<Unit>, n: nat, i: nat, bias: nat, output: seq<nat>)
    requires text != [] && ReadDigits(text, i, 1, BASE, bias).Err?
    ensures Tail(text, n, i, bias, output) == Err(ReadDigits(text, i, 1, BASE, bias).error)
  {
  }

  lemma TailReads(text: seq<Unit>, n: nat, i: nat, bias: nat, output: seq<nat>, i': nat, rest: seq<Unit>)
    requires text != [] && i <= i'
    requires ReadDigits(text, i, 1, BASE, bias) == Ok(Read(i', rest))
    ensures Tail(text, n, i, bias, output)
         == var out := |output| + 1;
            var n', at := n + Rows(i', out), Column(i', out);
            if n' > MAX_INT then Err(Overflow)
            else Tail(rest, n', at + 1, Adapt(i' - i, out, i == 0), output[..at] + [n'] + output[at..])
  {
    hide Rows, Column;
  }

  /** Where the basic code points of an encoded text end, and where its integers begin. */
  function BasicEnd(text: seq<Unit>): (basic: nat)
    ensures basic <= |text|
    ensures basic > 0 ==> basic < |text|
  {
    if LastDelimiter(text) < 0 then 0 else LastDelimiter(text)
  }

  function Start(text: seq<Unit>): (start: nat)
    ensures start <= |text|
  {
    if BasicEnd(text) > 0 then BasicEnd(text) + 1 else 0
  }

  /** punycode's decode as an array of numbers, before String.fromCodePoint. */
  function DecodedNumbers(text: seq<Unit>): Result<seq<nat>, Problem> {
    if exists j :: 0 <= j < BasicEnd(text) && text[j] >= 0x80 then Err(NotBasic)
    else Tail(text[Start(text)..], INITIAL_N, 0, INITIAL_BIAS, text[..BasicEnd(text)])
  }

  /** String.fromCodePoint throws a RangeError for a number that is no code point. */
  function FromCodePoints(numbers: seq<nat>): Result<seq<Unit>, Problem> {
    if forall i :: 0 <= i < |numbers| ==> numbers[i] <= 0x10_FFFF then Ok(Units(numbers)) else Err(InvalidCodePoint)
  }

  function Decoded(text: seq<Unit>): Result<seq<Unit>, Problem> {
    match DecodedNumbers(text)
    case Err(e) => Err(e)
    case Ok(numbers) => FromCodePoints(numbers)
  }
}
