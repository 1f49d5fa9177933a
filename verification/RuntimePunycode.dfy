/**
 * The engine's own decoder, which checks no 31-bit bound and no basic code point. Where the library's decoder answers,
 * or refuses a text as malformed, it does the same.
 */
module RuntimePunycode {
  import opened Wrappers
  import opened Ucs2
  import opened Bootstring
  import opened PunycodeSpec
  import Punycode

  method DigitOf(code: Unit) returns (digit: Option<nat>)
    ensures digit == if BasicToDigit(code) < BASE then Some(BasicToDigit(code)) else None
  {
    if 0x30 <= code <= 0x39 {
      return Some(code - 0x30 + 26);
    } else if 0x61 <= code <= 0x7A {
      return Some(code - 0x61);
    } else if 0x41 <= code <= 0x5A {
      return Some(code - 0x41);
    } else {
      return None;
    }
  }

  /** Neither a size the library refuses nor a code unit it does not take as basic. */
  ghost predicate Comparable<T>(r: Result<T, Problem>) {
    r != Err(Overflow) && r != Err(NotBasic)
  }

  method PunycodeDecode(text: seq<Unit>) returns (r: Result<seq<Unit>, Problem>)
    requires Comparable(Decoded(text))
    ensures r == Decoded(text)
  {
    var index := Punycode.FindLastDelimiter(text);
    var output: seq<nat> := [];
    if index > 0 {
      output := text[..index];
      index := index + 1;
    } else {
      index := 0;
    }
    var numbers := DecodeTail(text, index, output);
    if numbers.Err? {
      return Err(numbers.error);
    }
    return FromCodePoints(numbers.value);
  }

  method DecodeTail(text: seq<Unit>, start: nat, basics: seq<nat>) returns (r: Result<seq<nat>, Problem>)
    requires start <= |text|
    requires Comparable(Tail(text[start..], INITIAL_N, 0, INITIAL_BIAS, basics))
    ensures r == Tail(text[start..], INITIAL_N, 0, INITIAL_BIAS, basics)
  {
    hide Tail, ReadDigits, Adapt, Rows, Column;
    var output, index := basics, start;
    var n: nat, i: nat, bias: nat := INITIAL_N, 0, INITIAL_BIAS;
    while index < |text|
      invariant index <= |text|
      invariant Tail(text[start..], INITIAL_N, 0, INITIAL_BIAS, basics) == Tail(text[index..], n, i, bias, output)
    {
      var oldi := i;
      ghost var from := index;
      ghost var reading := ReadDigits(text[index..], i, 1, BASE, bias);
      if reading.Err? {
        TailFails(text[index..], n, i, bias, output);
      }
      var read := ReadDelta(text, index, i, bias);
      if read.Err? {
        return Err(read.error);
      }
      i, index := read.value.0, read.value.1;
      var out := |output| + 1;
      TailReads(text[from..], n, oldi, bias, output, i, text[index..]);
      bias := ComputeAdapt(i - oldi, out, oldi == 0);
      n := n + Rows(i, out);
      i := Column(i, out);
      output := output[..i] + [n] + output[i..];
      i := i + 1;
    }
    TailEnds(text[index..], n, i, bias, output);
    return Ok(output);
  }

  method ReadDelta(text: seq<Unit>, start: nat, i0: nat, bias: nat) returns (r: Result<(nat, nat), Problem>)
    requires start < |text|
    requires Comparable(ReadDigits(text[start..], i0, 1, BASE, bias))
    ensures match r
            case Ok((i, index)) =>
              && start < index <= |text| && i0 <= i
              && ReadDigits(text[start..], i0, 1, BASE, bias) == Ok(Read(i, text[index..]))
            case Err(e) => ReadDigits(text[start..], i0, 1, BASE, bias) == Err(e)
  {
    hide ReadDigits;
    var i: nat, index: nat, weight: nat, k: nat := i0, start, 1, BASE;
    while true
      invariant start <= index <= |text| && weight > 0 && i0 <= i
      invariant ReadDigits(text[start..], i0, 1, BASE, bias) == ReadDigits(text[index..], i, weight, k, bias)
      decreases |text| - index
    {
      if index >= |text| {
        Punycode.ReadNothing(text[index..], i, weight, k, bias);
        return Err(InvalidInput);
      }
      Punycode.ReadStep(text, index, i, weight, k, bias);
      var digit := DigitOf(text[index]);
      index := index + 1;
      if digit == None {
        return Err(InvalidInput);
      }
      i := i + Punycode.Weighed(digit.value, weight);
      var t := Threshold(k, bias);
      if digit.value < t {
        return Ok((i, index));
      }
      weight := Punycode.Weighed(weight, BASE - t);
      k := k + BASE;
    }
  }
}
