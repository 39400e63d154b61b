/** The `top_n` number control shared by the analysis and search forms, and
    the validation both forms run before they send a request. */
module TopN {
  import opened Api
  import opened Text

  const MinTopN := 1
  const MaxTopN := 20
  const DefaultTopN := 5

  /** The result of `parseInt` on the control's text: an integer, or NaN when
      the text does not start with a number (an emptied control). */
  datatype Num = Int(n: int) | NaN

  /** `top_n < 1 || top_n > 20`. Every comparison with NaN is false, so NaN is
      never out of range. */
  predicate OutOfRange(v: Num)
    ensures OutOfRange(v) ==> v.Int?
    ensures v.Int? ==> (OutOfRange(v) <==> !(MinTopN <= v.n <= MaxTopN))
  {
    v.Int? && (v.n < MinTopN || v.n > MaxTopN)
  }

  /** The clamp in handleTopNChange: below 1 becomes 1, above 20 becomes 20,
      anything else, NaN included, is stored as parsed. */
  function Clamp(v: Num): (r: Num)
    ensures v.NaN? <==> r.NaN?
    ensures r.Int? ==> MinTopN <= r.n <= MaxTopN
    ensures v.Int? && v.n < MinTopN ==> r == Int(MinTopN)
    ensures v.Int? && v.n > MaxTopN ==> r == Int(MaxTopN)
    ensures !OutOfRange(v) ==> r == v
    ensures !OutOfRange(r)
  {
    if v.Int? && v.n < MinTopN then Int(MinTopN)
    else if v.Int? && v.n > MaxTopN then Int(MaxTopN)
    else v
  }

  /** The value the control holds after the user's successive edits, each
      one parsed and then clamped, starting from `start`. */
  function AfterChanges(start: Num, inputs: seq<Num>): Num
    decreases |inputs|
  {
    if inputs == [] then start else AfterChanges(Clamp(inputs[0]), inputs[1..])
  }

  /** No run of edits can take the control out of range, so the range check
      of validateForm cannot fail on a count the control produced; and when
      every edit parses as an integer the count stays an integer. */
  lemma {:induction false} ChangesKeepRange(start: Num, inputs: seq<Num>)
    requires !OutOfRange(start)
    ensures !OutOfRange(AfterChanges(start, inputs))
    ensures start.Int? && (forall i :: 0 <= i < |inputs| ==> inputs[i].Int?) ==>
      AfterChanges(start, inputs).Int? && MinTopN <= AfterChanges(start, inputs).n <= MaxTopN
    decreases |inputs|
  {
    if inputs != [] {
      ChangesKeepRange(Clamp(inputs[0]), inputs[1..]);
      assert forall i :: 0 <= i < |inputs| - 1 ==> inputs[1..][i] == inputs[i + 1];
    }
  }

  /** From the initial count of 5, any run of integer edits keeps the count
      an integer in [1, 20]. */
  lemma FromDefaultStaysInRange(inputs: seq<Num>)
    requires forall i :: 0 <= i < |inputs| ==> inputs[i].Int?
    ensures AfterChanges(Int(DefaultTopN), inputs).Int?
    ensures MinTopN <= AfterChanges(Int(DefaultTopN), inputs).n <= MaxTopN
  {
    ChangesKeepRange(Int(DefaultTopN), inputs);
  }

  /** validateForm: a blank requirement is reported first, then an
      out-of-range count; None means the form may be sent. */
  function CheckQuery(requirement: string, topN: Num, blankMessage: string, rangeMessage: string): (r: Option<string>)
    ensures r == None <==> !IsBlank(requirement) && !OutOfRange(topN)
    ensures IsBlank(requirement) ==> r == Some(blankMessage)
    ensures !IsBlank(requirement) && OutOfRange(topN) ==> r == Some(rangeMessage)
  {
    if IsBlank(requirement) then Some(blankMessage)
    else if OutOfRange(topN) then Some(rangeMessage)
    else None
  }
}
