/** Size and count parsing of `PBar` (`buff_size_in_bytes`, the first branch of
    `get_total`): regular-expression grammars over the lower-cased option text,
    followed by a lookup in a unit table. */
module Units {
  import opened Wrappers
  import opened Text
  import opened Errors

  /** `BYTE_SCALE`: binary multipliers for buffer sizes. */
  const ByteScale: map<string, nat> := map["" := 1, "k" := 1024, "m" := 1024 * 1024]

  /** Buffer-size suffixes rejected as too large rather than unknown. */
  const TooLargeSuffixes: set<string> := {"g", "t", "p"}

  /** `COUNT_SCALE`: decimal multipliers for totals ("b" is billion). */
  const CountScale: map<string, nat> :=
    map["" := 1, "k" := 1000, "m" := 1000000, "b" := 1000000000, "t" := 1000000000000]

  /** Which one-letter suffixes each table knows. */
  lemma SuffixTables(c: char)
    ensures [c] in ByteScale <==> c == 'k' || c == 'm'
    ensures [c] in TooLargeSuffixes <==> c == 'g' || c == 't' || c == 'p'
    ensures [c] in CountScale <==> c == 'k' || c == 'm' || c == 'b' || c == 't'
  {
    assert [c][0] == c;
  }

  /** `value * SCALE[suffix]`. */
  function Scaled(value: nat, multiplier: nat): nat
  {
    value * multiplier
  }

  /** Length of the longest prefix of digits: what the greedy `[0-9]+` takes. */
  function DigitRun(t: string): (n: nat)
    ensures n <= |t|
    ensures AllDigits(t[..n])
    ensures n < |t| ==> !IsDigit(t[n])
  {
    if t == [] || !IsDigit(t[0]) then 0
    else
      var m := DigitRun(t[1..]);
      assert t[..m + 1] == [t[0]] + t[1..][..m];
      m + 1
  }

  /** `^(?P<value>[0-9]+)(?P<suffix>[a-z]?)(b)?$` in full: a digit run, at most
      one letter, then an optional literal `b`. */
  ghost predicate BufferShape(t: string, digits: string, suffix: string, tail: string)
  {
    && |digits| >= 1 && AllDigits(digits)
    && |suffix| <= 1 && AllLowerLetters(suffix)
    && (tail == "" || tail == "b")
    && t == digits + suffix + tail
  }

  /** `^(?P<value>[0-9]+)(?P<suffix>[a-z])?$` in full: a digit run and at most one letter. */
  ghost predicate TotalShape(t: string, digits: string, suffix: string)
  {
    && |digits| >= 1 && AllDigits(digits)
    && |suffix| <= 1 && AllLowerLetters(suffix)
    && t == digits + suffix
  }

  /** The buffer-size match: the `value` and `suffix` groups, or None. */
  function ScanBuffer(t: string): (r: Option<(string, string)>)
    ensures r.Some? ==> |r.value.0| >= 1 && AllDigits(r.value.0) && |r.value.1| <= 1 && AllLowerLetters(r.value.1)
  {
    var n := DigitRun(t);
    if n == 0 then None
    else if n == |t| then Some((t, []))
    else if n + 1 == |t| && IsLowerLetter(t[n]) then Some((t[..n], [t[n]]))
    else if n + 2 == |t| && IsLowerLetter(t[n]) && t[n + 1] == 'b' then Some((t[..n], [t[n]]))
    else None
  }

  /** The total match: the `value` and `suffix` groups, or None. */
  function ScanTotal(t: string): (r: Option<(string, string)>)
    ensures r.Some? ==> |r.value.0| >= 1 && AllDigits(r.value.0) && |r.value.1| <= 1 && AllLowerLetters(r.value.1)
  {
    var n := DigitRun(t);
    if n == 0 then None
    else if n == |t| then Some((t, []))
    else if n + 1 == |t| && IsLowerLetter(t[n]) then Some((t[..n], [t[n]]))
    else None
  }

  /** What the buffer-size scanner matches has the buffer-size shape. */
  lemma ScanBufferSound(t: string)
    requires ScanBuffer(t).Some?
    ensures exists tail :: BufferShape(t, ScanBuffer(t).value.0, ScanBuffer(t).value.1, tail)
  {
    var n := DigitRun(t);
    var (digits, suffix) := ScanBuffer(t).value;
    assert BufferShape(t, digits, suffix, t[n + |suffix|..]);
  }

  /** What the total scanner matches has the total shape. */
  lemma ScanTotalSound(t: string)
    requires ScanTotal(t).Some?
    ensures TotalShape(t, ScanTotal(t).value.0, ScanTotal(t).value.1)
  {
  }

  /** In any decomposition of a match, the digits are the whole leading digit run. */
  lemma DigitsAreTheRun(t: string, digits: string, rest: string)
    requires |digits| >= 1 && AllDigits(digits) && t == digits + rest
    requires rest == [] || !IsDigit(rest[0])
    ensures DigitRun(t) == |digits| && t[..|digits|] == digits
  {
  }

  /** Every string of the buffer-size shape is matched, with the same digits
      and the longest letter group: the only other reading, a bare `b`, is
      taken by the greedy `[a-z]?` as the suffix. */
  lemma ScanBufferComplete(t: string, digits: string, suffix: string, tail: string)
    requires BufferShape(t, digits, suffix, tail)
    ensures ScanBuffer(t).Some? && ScanBuffer(t).value.0 == digits
    ensures ScanBuffer(t).value.1 == suffix || (suffix == "" && tail == "b" && ScanBuffer(t).value.1 == "b")
  {
    var rest := suffix + tail;
    assert t == digits + rest;
    assert rest != [] ==> IsLowerLetter(rest[0]);
    DigitsAreTheRun(t, digits, rest);
    assert t[|digits|..] == rest;
  }

  /** A string of the total shape is matched with exactly its digits and letter. */
  lemma ScanTotalComplete(t: string, digits: string, suffix: string)
    requires TotalShape(t, digits, suffix)
    ensures ScanTotal(t) == Some((digits, suffix))
  {
    assert suffix != [] ==> IsLowerLetter(suffix[0]);
    DigitsAreTheRun(t, digits, suffix);
    var n := |digits|;
    assert t[..n] == digits;
    if suffix == [] {
      assert t == digits;
    } else {
      assert n + 1 == |t| && t[n] == suffix[0];
      assert suffix == [t[n]];
    }
  }

  /** `buff_size_in_bytes`: the buffer size in bytes, or the ArgumentError it raises. */
  function ParseBufferSize(text: string): (r: Result<nat, ArgError>)
    ensures r.Failure? ==> r.error == UnrecognizedBufferSize(text) || r.error == BufferSizeTooLarge(text)
  {
    var m := ScanBuffer(Chomp(Lower(text)));
    if m.None? then Failure(UnrecognizedBufferSize(text))
    else
      var (digits, suffix) := m.value;
      if suffix in ByteScale then Success(Scaled(DecimalValue(digits), ByteScale[suffix]))
      else if suffix in TooLargeSuffixes then Failure(BufferSizeTooLarge(text))
      else Failure(UnrecognizedBufferSize(text))
  }

  /** A number with suffix "", "k" or "m", optionally followed by "b", in any
      case, is that many bytes, kibibytes or mebibytes. */
  lemma ParseBufferSizeAccepts(text: string, digits: string, suffix: string, tail: string)
    requires BufferShape(Chomp(Lower(text)), digits, suffix, tail)
    requires suffix in ByteScale && (suffix == "" ==> tail == "")
    ensures ParseBufferSize(text) == Success(Scaled(DecimalValue(digits), ByteScale[suffix]))
  {
    ScanBufferComplete(Chomp(Lower(text)), digits, suffix, tail);
  }

  /** Suffixes "g", "t" and "p" are refused as too large. */
  lemma ParseBufferSizeTooLarge(text: string, digits: string, suffix: string, tail: string)
    requires BufferShape(Chomp(Lower(text)), digits, suffix, tail)
    requires suffix in TooLargeSuffixes
    ensures ParseBufferSize(text) == Failure(BufferSizeTooLarge(text))
  {
    ScanBufferComplete(Chomp(Lower(text)), digits, suffix, tail);
    assert suffix == [suffix[0]];
    SuffixTables(suffix[0]);
  }

  /** Any other letter is unrecognized. */
  lemma ParseBufferSizeOtherLetter(text: string, digits: string, suffix: string, tail: string)
    requires BufferShape(Chomp(Lower(text)), digits, suffix, tail)
    requires suffix != "" && suffix !in ByteScale && suffix !in TooLargeSuffixes
    ensures ParseBufferSize(text) == Failure(UnrecognizedBufferSize(text))
  {
    ScanBufferComplete(Chomp(Lower(text)), digits, suffix, tail);
  }

  /** A bare "b" after the digits (as in "10b") is taken as the suffix letter,
      which the byte table does not know. */
  lemma ParseBufferSizeBareB(text: string, digits: string)
    requires |digits| >= 1 && AllDigits(digits) && Chomp(Lower(text)) == digits + "b"
    ensures ParseBufferSize(text) == Failure(UnrecognizedBufferSize(text))
  {
    var t := Chomp(Lower(text));
    assert t == digits + "" + "b";
    assert BufferShape(t, digits, "", "b");
    ScanBufferComplete(t, digits, "", "b");
    SuffixTables('b');
  }

  /** Text that does not match the pattern at all is unrecognized. */
  lemma ParseBufferSizeNoMatch(text: string)
    requires forall digits, suffix, tail :: !BufferShape(Chomp(Lower(text)), digits, suffix, tail)
    ensures ParseBufferSize(text) == Failure(UnrecognizedBufferSize(text))
  {
    if ScanBuffer(Chomp(Lower(text))).Some? {
      ScanBufferSound(Chomp(Lower(text)));
    }
  }

  /** The first branch of `get_total`: the total count, or the ArgumentError it raises. */
  function ParseTotal(text: string): (r: Result<nat, ArgError>)
    ensures r.Failure? ==> r.error == UnrecognizedTotal(text)
  {
    var m := ScanTotal(Chomp(Lower(text)));
    if m.None? then Failure(UnrecognizedTotal(text))
    else
      var (digits, suffix) := m.value;
      if suffix in CountScale then Success(Scaled(DecimalValue(digits), CountScale[suffix]))
      else Failure(UnrecognizedTotal(text))
  }

  /** A number with suffix "", "k", "m", "b" or "t", in any case, is scaled by
      the decimal count table. */
  lemma ParseTotalAccepts(text: string, digits: string, suffix: string)
    requires TotalShape(Chomp(Lower(text)), digits, suffix) && suffix in CountScale
    ensures ParseTotal(text) == Success(Scaled(DecimalValue(digits), CountScale[suffix]))
  {
    ScanTotalComplete(Chomp(Lower(text)), digits, suffix);
  }

  /** A letter outside the count table (such as "g") is unrecognized. */
  lemma ParseTotalUnknownLetter(text: string, digits: string, suffix: string)
    requires TotalShape(Chomp(Lower(text)), digits, suffix) && suffix !in CountScale
    ensures ParseTotal(text) == Failure(UnrecognizedTotal(text))
  {
    ScanTotalComplete(Chomp(Lower(text)), digits, suffix);
  }

  /** Text of any other shape is unrecognized; this includes a trailing "b"
      after a unit letter, as in "10kb". */
  lemma ParseTotalNoMatch(text: string)
    requires forall digits, suffix :: !TotalShape(Chomp(Lower(text)), digits, suffix)
    ensures ParseTotal(text) == Failure(UnrecognizedTotal(text))
  {
    if ScanTotal(Chomp(Lower(text))).Some? {
      ScanTotalSound(Chomp(Lower(text)));
    }
  }

  /** "10kb": a unit letter followed by "b" has no reading as a total. */
  lemma {:induction false} ParseTotalTrailingB(text: string, digits: string, letter: char)
    requires |digits| >= 1 && AllDigits(digits) && IsLowerLetter(letter)
    requires Chomp(Lower(text)) == digits + [letter] + "b"
    ensures ParseTotal(text) == Failure(UnrecognizedTotal(text))
  {
    var t := Chomp(Lower(text));
    assert t == digits + ([letter] + "b");
    DigitsAreTheRun(t, digits, [letter] + "b");
  }

  /** The default buffer size "10M" is 10 MiB. */
  lemma DefaultBufferSize()
    ensures ParseBufferSize("10M") == Success(10485760)
  {
    assert Lower("10M") == "10m";
    assert Chomp("10m") == "10m";
    assert "10m" == "10" + "m" + "";
    assert DecimalValue("10") == 10;
    ParseBufferSizeAccepts("10M", "10", "m", "");
  }

  /** The trailing "b" is optional: "10mb" is 10 MiB too. */
  lemma MegabyteSpelling()
    ensures ParseBufferSize("10mb") == Success(10485760)
  {
    assert Lower("10mb") == "10mb";
    assert Chomp("10mb") == "10mb";
    assert "10mb" == "10" + "m" + "b";
    assert DecimalValue("10") == 10;
    ParseBufferSizeAccepts("10mb", "10", "m", "b");
  }

  /** "1K" is 1024 bytes and "0" is accepted as zero bytes. */
  lemma SmallBufferSizes()
    ensures ParseBufferSize("1K") == Success(1024)
    ensures ParseBufferSize("0") == Success(0)
  {
    assert Lower("1K") == "1k";
    assert DecimalValue("1") == 1;
    ParseBufferSizeAccepts("1K", "1", "k", "");
    ParseBufferSizeAccepts("0", "0", "", "");
  }

  /** "2G" is too large. */
  lemma GigabyteBufferRejected()
    ensures ParseBufferSize("2G") == Failure(BufferSizeTooLarge("2G"))
  {
    assert Lower("2G") == "2g";
    ParseBufferSizeTooLarge("2G", "2", "g", "");
  }

  /** "10b" is unrecognized: the "b" is read as the unit letter. */
  lemma BareByteSuffixRejected()
    ensures ParseBufferSize("10b") == Failure(UnrecognizedBufferSize("10b"))
  {
    assert Lower("10b") == "10b";
    assert Chomp("10b") == "10" + "b";
    ParseBufferSizeBareB("10b", "10");
  }

  /** "10x" is unrecognized. */
  lemma UnknownBufferSuffixRejected()
    ensures ParseBufferSize("10x") == Failure(UnrecognizedBufferSize("10x"))
  {
    assert Lower("10x") == "10x";
    assert Chomp("10x") == "10" + "x" + "";
    SuffixTables('x');
    ParseBufferSizeOtherLetter("10x", "10", "x", "");
  }

  /** "2b" is two billion and "3T" three trillion. */
  lemma TotalExamples()
    ensures ParseTotal("2b") == Success(2000000000)
    ensures ParseTotal("3T") == Success(3000000000000)
  {
    assert Lower("2b") == "2b";
    assert Lower("3T") == "3t";
    ParseTotalAccepts("2b", "2", "b");
    ParseTotalAccepts("3T", "3", "t");
  }

  /** "10kb" is not a total: no "b" may follow the unit letter. */
  lemma TrailingBTotalRejected()
    ensures ParseTotal("10kb") == Failure(UnrecognizedTotal("10kb"))
  {
    assert Lower("10kb") == "10kb";
    ParseTotalTrailingB("10kb", "10", 'k');
  }

  /** "5g" is not a total: "g" is not in the count table. */
  lemma GigaTotalRejected()
    ensures ParseTotal("5g") == Failure(UnrecognizedTotal("5g"))
  {
    assert Lower("5g") == "5g";
    SuffixTables('g');
    ParseTotalUnknownLetter("5g", "5", "g");
  }
}
