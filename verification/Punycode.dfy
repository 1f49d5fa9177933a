/** punycode's encode and decode as their loops run, and the engine's own second decoder. */
module Punycode {
  import opened Wrappers
  import opened Ucs2
  import opened Bootstring
  import opened PunycodeSpec
  import opened PunycodeRoundTrip

  method Encode(text: seq<Unit>) returns (r: Result<seq<Unit>, Problem>)
    ensures r == Encoded(Points(text))
  {
    hide Row, Scan, Kept, TooFar, Steps;
    var input := Ucs2.Decode(text);
    var output := CopyBasics(input);
    var basicLength := |output|;
    var n: nat, delta: nat, bias: nat, handled: nat := INITIAL_N, 0, INITIAL_BIAS, basicLength;
    if basicLength > 0 {
      output := output + [DELIMITER];
    }
    assert output == Header(input);
    while handled < |input|
      invariant n <= 0x11_0000 && handled == |Kept(input, n, 0)|
      invariant Encoded(input) == Prepend(output, Row(input, n, delta, bias, handled, basicLength))
      decreases 0x11_0000 - n
    {
      var m := FindNext(input, n);
      RowStarts(input, n, delta, bias, handled, basicLength);
      var plus := handled + 1;
      if TooFar(n, m, delta, plus) {
        return Err(Overflow);
      }
      delta := delta + Steps(n, m, plus);
      n := m;
      var pass := Pass(input, n, delta, bias, handled, plus, basicLength);
      if pass.Err? {
        return Err(pass.error);
      }
      PrependTwice(output, pass.value.units, Row(input, n + 1, pass.value.delta + 1, pass.value.bias, pass.value.handled, basicLength));
      output := output + pass.value.units;
      delta, bias, handled := pass.value.delta + 1, pass.value.bias, pass.value.handled;
      n := n + 1;
    }
    RowEnds(input, n, delta, bias, handled, basicLength);
    assert output + [] == output;
    return Ok(output);
  }

  lemma PrependTwice(a: seq<Unit>, b: seq<Unit>, tail: Result<seq<Unit>, Problem>)
    ensures Prepend(a, Prepend(b, tail)) == Prepend(a + b, tail)
  {
    if tail.Ok? {
      assert a + (b + tail.value) == a + b + tail.value;
    }
  }

  method CopyBasics(input: seq<CodePoint>) returns (output: seq<Unit>)
    ensures output == Basics(input)
  {
    output := [];
    for j := 0 to |input|
      invariant output == Basics(input[..j])
    {
      assert input[..j + 1][..j] == input[..j];
      if input[j] < 0x80 {
        output := output + [input[j]];
      }
    }
    assert input[..|input|] == input;
  }

  method FindNext(input: seq<CodePoint>, n: nat) returns (m: nat)
    ensures m == Next(input, n)
  {
    m := MAX_INT;
    for j := 0 to |input|
      invariant m == Next(input[..j], n)
    {
      assert input[..j + 1][..j] == input[..j];
      if input[j] >= n && input[j] < m {
        m := input[j];
      }
    }
    assert input[..|input|] == input;
  }

  datatype PassResult = PassResult(units: seq<Unit>, delta: nat, bias: nat, handled: nat)

  /** The inner loop of encode: one code point n, over the whole input. */
  method Pass(input: seq<CodePoint>, n: nat, delta0: nat, bias0: nat, handled0: nat, plus: nat, basicLength: nat)
    returns (r: Result<PassResult, Problem>)
    requires n <= 0x10_FFFF && handled0 == |Kept(input, n, 0)| && plus > 0
    ensures match r
            case Ok(PassResult(units, delta, bias, handled)) =>
              && handled == |Kept(input, n + 1, 0)|
              && Scan(input, n, 0, delta0, bias0, handled0, plus, basicLength)
                 == Prepend(units, Row(input, n + 1, delta + 1, bias, handled, basicLength))
            case Err(e) => Scan(input, n, 0, delta0, bias0, handled0, plus, basicLength) == Err(e)
  {
    hide Scan, Row, Kept, Adapt, Digits;
    var delta: nat, bias: nat, handled: nat := delta0, bias0, handled0;
    var output: seq<Unit> := [];
    ghost var goal := Scan(input, n, 0, delta0, bias0, handled0, plus, basicLength);
    PrependNothing(goal);
    for j := 0 to |input|
      invariant handled == |Kept(input, n, j)|
      invariant goal == Prepend(output, Scan(input, n, j, delta, bias, handled, plus, basicLength))
    {
      if input[j] != n {
        ScanPasses(input, n, j, delta, bias, handled, plus, basicLength);
      }
      if input[j] < n {
        delta := delta + 1;
        if delta > MAX_INT {
          return Err(Overflow);
        }
      }
      if input[j] == n {
        var units := WriteDigits(delta, bias);
        ghost var bias' := Adapt(delta, plus, handled == basicLength);
        ScanPlaces(input, n, j, delta, bias, handled, plus, basicLength);
        PrependTwice(output, units, Scan(input, n, j + 1, 0, bias', handled + 1, plus, basicLength));
        output := output + units;
        bias := ComputeAdapt(delta, plus, handled == basicLength);
        delta := 0;
        handled := handled + 1;
      }
    }
    ScanEnds(input, n, delta, bias, handled, plus, basicLength);
    return Ok(PassResult(output, delta, bias, handled));
  }

  lemma PrependNothing(tail: Result<seq<Unit>, Problem>)
    ensures Prepend([], tail) == tail
  {
    if tail.Ok? {
      assert [] + tail.value == tail.value;
    }
  }

  method WriteDigits(delta: nat, bias: nat) returns (units: seq<Unit>)
    ensures units == Digits(delta, BASE, bias)
  {
    units := [];
    var q: nat, k: nat := delta, BASE;
    while q >= Threshold(k, bias)
      invariant units + Digits(q, k, bias) == Digits(delta, BASE, bias)
      decreases q
    {
      var t := Threshold(k, bias);
      var digit: nat := t + (q - t) % (BASE - t);
      ghost var more := Digits(Remainder(q, t), k + BASE, bias);
      assert units + ([DigitToBasic(digit)] + more) == units + [DigitToBasic(digit)] + more;
      units := units + [DigitToBasic(digit)];
      q := Remainder(q, t);
      k := k + BASE;
    }
    units := units + [DigitToBasic(q)];
  }

  // ------------------------------------------------------------------ decoding

  method FindLastDelimiter(text: seq<Unit>) returns (at: int)
    ensures at == LastDelimiter(text)
  {
    at := |text| - 1;
    while at >= 0 && text[at] != DELIMITER
      invariant -1 <= at < |text|
      invariant LastDelimiter(text) == LastDelimiter(text[..at + 1])
    {
      assert text[..at + 1][..at] == text[..at];
      at := at - 1;
    }
    if at >= 0 {
      assert text[..at + 1][at] == DELIMITER;
    }
  }

  /** punycode's decode. */
  method Decode(text: seq<Unit>) returns (r: Result<seq<Unit>, Problem>)
    ensures r == Decoded(text)
  {
    var basic := FindLastDelimiter(text);
    if basic < 0 {
      basic := 0;
    }
    for j := 0 to basic
      invariant forall i :: 0 <= i < j ==> text[i] < 0x80
    {
      if text[j] >= 0x80 {
        return Err(NotBasic);
      }
    }
    var numbers := DecodeTail(text, if basic > 0 then basic + 1 else 0, text[..basic]);
    if numbers.Err? {
      return Err(numbers.error);
    }
    return FromCodePoints(numbers.value);
  }

  /** The main loop of decode. */
  method DecodeTail(text: seq<Unit>, start: nat, basics: seq<nat>) returns (r: Result<seq<nat>, Problem>)
    requires start <= |text|
    ensures r == Tail(text[start..], INITIAL_N, 0, INITIAL_BIAS, basics)
  {
    hide Tail, ReadDigits, Adapt, Rows, Column;
    var output, index := basics, start;
    var n: nat, i: nat, bias: nat := INITIAL_N, 0, INITIAL_BIAS;
    while index < |text|
      invariant index <= |text|
      invariant Tail(text[start..], INITIAL_N, 0, INITIAL_BIAS, basics) == Tail(text[index..], n, i, bias, output)
    {
      var oldi := i;
      ghost var from := index;
      var read := ReadDelta(text, index, i, bias);
      if read.Err? {
        TailFails(text[index..], n, i, bias, output);
        return Err(read.error);
      }
      i, index := read.value.0, read.value.1;
      var out := |output| + 1;
      TailReads(text[from..], n, oldi, bias, output, i, text[index..]);
      bias := ComputeAdapt(i - oldi, out, oldi == 0);
      if Rows(i, out) > MAX_INT - n {
        return Err(Overflow);
      }
      n := n + Rows(i, out);
      i := Column(i, out);
      output := output[..i] + [n] + output[i..];
      i := i + 1;
    }
    TailEnds(text[index..], n, i, bias, output);
    return Ok(output);
  }

  /** The loop of decode over one variable-length integer: the new position and index. */
  method ReadDelta(text: seq<Unit>, start: nat, i0: nat, bias: nat) returns (r: Result<(nat, nat), Problem>)
    requires start < |text|
    ensures match r
            case Ok((i, index)) =>
              && start < index <= |text| && i0 <= i
              && ReadDigits(text[start..], i0, 1, BASE, bias) == Ok(Read(i, text[index..]))
            case Err(e) => ReadDigits(text[start..], i0, 1, BASE, bias) == Err(e)
  {
    hide ReadDigits;
    var i: nat, index: nat, w: nat, k: nat := i0, start, 1, BASE;
    while true
      invariant start <= index <= |text| && w > 0 && i0 <= i
      invariant ReadDigits(text[start..], i0, 1, BASE, bias) == ReadDigits(text[index..], i, w, k, bias)
      decreases |text| - index
    {
      if index >= |text| {
        ReadNothing(text[index..], i, w, k, bias);
        return Err(InvalidInput);
      }
      ReadStep(text, index, i, w, k, bias);
      var digit := BasicToDigit(text[index]);
      index := index + 1;
      if digit >= BASE {
        return Err(InvalidInput);
      }
      if digit > (MAX_INT - i) / w {
        return Err(Overflow);
      }
      i := i + Weighed(digit, w);
      var t := Threshold(k, bias);
      if digit < t {
        return Ok((i, index));
      }
      if w > MAX_INT / (BASE - t) {
        return Err(Overflow);
      }
      w := Weighed(w, BASE - t);
      k := k + BASE;
    }
  }

  lemma ReadNothing(text: seq<Unit>, i: nat, w: nat, k: nat, bias: nat)
    requires text == [] && w > 0
    ensures ReadDigits(text, i, w, k, bias) == Err(InvalidInput)
  {
  }

  function Weighed(digit: nat, w: nat): (product: nat)
    ensures digit > 0 && w > 0 ==> product > 0
    ensures product == digit * w
  {
    digit * w
  }

  lemma ReadStep(text: seq<Unit>, index: nat, i: nat, w: nat, k: nat, bias: nat)
    requires index < |text| && w > 0
    ensures ReadDigits(text[index..], i, w, k, bias)
         == var digit, t := BasicToDigit(text[index]), Threshold(k, bias);
            if digit >= BASE then Err(InvalidInput)
            else if digit > (MAX_INT - i) / w then Err(Overflow)
            else if digit < t then Ok(Read(i + Weighed(digit, w), text[index + 1..]))
            else if w > MAX_INT / (BASE - t) then Err(Overflow)
            else ReadDigits(text[index + 1..], i + Weighed(digit, w), Weighed(w, BASE - t), k + BASE, bias)
  {
    assert text[index..][1..] == text[index + 1..];
  }
}
