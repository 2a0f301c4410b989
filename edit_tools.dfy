/**
  The size input of the pencil and eraser tools, and which tools show an
  options panel.

  JavaScript's `Number(text)` is a parameter `number`: `Some(v)` for a numeric
  result, `None` for NaN, which fails every comparison. A call of the size
  setter is the `Some` result of a handler; `None` means the setter is not
  called and the size keeps its value.
*/
module EditTools {
  import opened Wrappers

  /** Smallest and largest accepted pen or eraser size. */
  const MinSize: real := 1.0
  const MaxSize: real := 20.0

  /** `text.replace(/^0+/, '')`: the text without its leading zeros. */
  function StripLeadingZeros(text: string): (r: string)
    ensures |r| <= |text| && r == text[|text| - |r|..]
    ensures forall k :: 0 <= k < |text| - |r| ==> text[k] == '0'
    ensures r == [] || r[0] != '0'
  {
    if |text| > 0 && text[0] == '0' then StripLeadingZeros(text[1..]) else text
  }

  /** `handleSizeChange`: the size is set to the converted value of the text
      without leading zeros when that value lies in [1, 20]. */
  function HandleSizeChange(text: string, number: string -> Option<real>): (r: Option<real>)
    ensures r.Some? <==> (number(StripLeadingZeros(text)).Some? &&
                          MinSize <= number(StripLeadingZeros(text)).value <= MaxSize)
    ensures r.Some? ==> r == number(StripLeadingZeros(text))
  {
    var value := StripLeadingZeros(text);
    var numberValue := number(value);
    if numberValue.Some? && numberValue.value >= MinSize && numberValue.value <= MaxSize
    then Some(numberValue.value)
    else None
  }

  /** `handleSizeBlur`: a value below 1 is raised to 1, one above 20 lowered
      to 20; an in-range value or NaN leaves the size alone. */
  function HandleSizeBlur(text: string, number: string -> Option<real>): (r: Option<real>)
    ensures r == Some(MinSize) <==> number(text).Some? && number(text).value < MinSize
    ensures r == Some(MaxSize) <==> number(text).Some? && number(text).value > MaxSize
    ensures r.None? <==> number(text).None? || MinSize <= number(text).value <= MaxSize
  {
    var value := number(text);
    if value.Some? && value.value < MinSize then Some(MinSize)
    else if value.Some? && value.value > MaxSize then Some(MaxSize)
    else None
  }

  /** `isToolOptionsVisible`: the options panel shows for the pencil,
      eraser, shapes and line tools only. */
  function IsToolOptionsVisible(selectedTool: string): (r: bool)
    ensures r <==> selectedTool == "pencil" || selectedTool == "eraser" ||
                   selectedTool == "shapes" || selectedTool == "line"
  {
    selectedTool in ["pencil", "eraser", "shapes", "line"]
  }

  /** Stripping leading zeros a second time changes nothing. */
  lemma StripLeadingZerosIdempotent(text: string)
    ensures StripLeadingZeros(StripLeadingZeros(text)) == StripLeadingZeros(text)
  {
  }

  /** A run of `n` zero characters. */
  function Zeros(n: nat): (r: string)
    ensures |r| == n && forall k :: 0 <= k < n ==> r[k] == '0'
  {
    if n == 0 then "" else "0" + Zeros(n - 1)
  }

  /** Zeros put in front of a text are stripped along with its own. */
  lemma {:induction false} StripLeadingZerosPrefix(zeros: nat, text: string)
    ensures StripLeadingZeros(Zeros(zeros) + text) == StripLeadingZeros(text)
  {
    if zeros > 0 {
      var padded := Zeros(zeros) + text;
      assert padded == "0" + (Zeros(zeros - 1) + text);
      assert padded[1..] == Zeros(zeros - 1) + text;
      assert StripLeadingZeros(padded) == StripLeadingZeros(padded[1..]);
      StripLeadingZerosPrefix(zeros - 1, text);
    } else {
      assert Zeros(zeros) + text == text;
    }
  }

  /** Leading zeros do not change what the size input accepts. */
  lemma LeadingZerosIgnored(zeros: nat, text: string, number: string -> Option<real>)
    ensures HandleSizeChange(Zeros(zeros) + text, number) == HandleSizeChange(text, number)
  {
    StripLeadingZerosPrefix(zeros, text);
  }

  /** A text of zeros only ("0", "00", ...) becomes "" and so converts to 0
      (JavaScript's `Number("")`), which the size input rejects. */
  lemma AllZerosRejected(text: string, number: string -> Option<real>)
    requires forall k :: 0 <= k < |text| ==> text[k] == '0'
    requires number("") == Some(0.0)
    ensures StripLeadingZeros(text) == ""
    ensures HandleSizeChange(text, number).None?
  {
  }

  /** The size stays within [1, 20] through any change or blur, given that it
      starts there. */
  lemma SizeStaysInRange(size: real, text: string, number: string -> Option<real>)
    requires MinSize <= size <= MaxSize
    ensures MinSize <= HandleSizeChange(text, number).GetOr(size) <= MaxSize
    ensures MinSize <= HandleSizeBlur(text, number).GetOr(size) <= MaxSize
  {
  }

  /** A value the change handler accepted is left alone by the blur that
      follows, when the text converts the same with or without its leading
      zeros. */
  lemma BlurAfterAcceptedChange(text: string, number: string -> Option<real>)
    requires HandleSizeChange(text, number).Some?
    requires number(text) == number(StripLeadingZeros(text))
    ensures HandleSizeBlur(text, number).None?
  {
  }
}
