/** The separator lines built by `Hr()` and `Hr(string)`
    (Batter.Core/Utils/BatterLog.cs, lines 65-88). */
module Separator {
  import opened Wrappers
  import opened DotNet
  import opened Seqs

  /** Width of every separator line. */
  const TotalWidth: int := 50

  /** `Hr()`: a rule of `=` characters, exactly `TotalWidth` long. */
  function Plain(): (line: string)
    ensures |line| == TotalWidth
    ensures forall i :: 0 <= i < |line| ==> line[i] == '='
  {
    Replicate('=', TotalWidth)
  }

  /** `line` is a run of `=`, a space, `title`, a space and a second run of
      `=` that is as long as the first or one longer. */
  ghost predicate Centred(line: string, title: string) {
    exists left: nat, right: nat ::
      && (right == left || right == left + 1)
      && line == Replicate('=', left) + " " + title + " " + Replicate('=', right)
  }

  /** The line built around an already trimmed title, as the code is
      written: C#'s truncating division makes the padding of a 49-character
      title 0 rather than negative, so the right-hand `new string('=', -1)`
      throws. */
  function Centre(t: string): (r: Result<string, Exception>)
    ensures r.Failure? <==> |t| == TotalWidth - 1
    ensures |t| >= TotalWidth ==> r == Success("= " + t + " =")
  {
    var messageLength := |t| + 2;
    var padding := TruncDiv(TotalWidth - messageLength, 2);
    if padding < 0 then
      Success("= " + t + " =")
    else
      match NewString('=', padding)
      case Failure(e) => Failure(e)
      case Success(left) =>
        match NewString('=', TotalWidth - messageLength - padding)
        case Failure(e) => Failure(e)
        case Success(right) => Success(left + " " + t + " " + right)
  }

  /** A title that fits is centred in a line of exactly `TotalWidth`. */
  lemma CentreFits(t: string)
    requires |t| <= TotalWidth - 2
    ensures Centre(t).Success?
    ensures |Centre(t).value| == TotalWidth
    ensures Centred(Centre(t).value, t)
  {
    var slack := TotalWidth - 2 - |t|;
    var left := slack / 2;
    var right := slack - left;
    TruncDivVersusEuclidean(slack, 2);
    assert TruncDiv(TotalWidth - (|t| + 2), 2) == left;
    var line := Replicate('=', left) + " " + t + " " + Replicate('=', right);
    assert Centre(t) == Success(line);
    assert right == left || right == left + 1;
  }

  /** The text `Hr(title)` passes to `Info`: the plain rule for a null or
      blank title, otherwise the trimmed title centred. */
  function Titled(title: Option<string>): (r: Result<string, Exception>)
    ensures IsNullOrWhiteSpace(title) ==> r == Success(Plain())
    ensures !IsNullOrWhiteSpace(title) ==>
      var t := Trim(title.value);
      && |t| > 0
      && (r.Failure? <==> |t| == TotalWidth - 1)
      && (|t| >= TotalWidth ==> r == Success("= " + t + " ="))
  {
    if IsNullOrWhiteSpace(title) then Success(Plain()) else Centre(Trim(title.value))
  }

  /** For a non-blank title that fits, `Hr(title)` logs a line of exactly
      `TotalWidth` with the trimmed title centred. */
  lemma TitledCentres(title: Option<string>)
    requires !IsNullOrWhiteSpace(title)
    requires |Trim(title.value)| <= TotalWidth - 2
    ensures Titled(title).Success?
    ensures |Titled(title).value| == TotalWidth
    ensures Centred(Titled(title).value, Trim(title.value))
  {
    CentreFits(Trim(title.value));
  }

  /** The input that breaks `Hr(title)`: 49 non-blank characters. */
  lemma TitledThrowsAt49()
    ensures Titled(Some(Replicate('x', 49))) == Failure(ArgumentOutOfRange("count"))
  {
    var t := Replicate('x', 49);
    assert !IsWhiteSpace(t[0]);
    assert TrimStart(t) == t;
    assert TrimEnd(t) == t;
  }

  /** The evidently intended centring: the fallback is taken whenever the
      title and its two spaces do not fit, which floor division of the
      negative slack gives. */
  function CentreCorrected(t: string): (line: string)
  {
    var messageLength := |t| + 2;
    var padding := (TotalWidth - messageLength) / 2;
    if padding < 0 then
      "= " + t + " ="
    else
      Replicate('=', padding) + " " + t + " " + Replicate('=', TotalWidth - messageLength - padding)
  }

  function TitledCorrected(title: Option<string>): (line: string)
  {
    if IsNullOrWhiteSpace(title) then Plain() else CentreCorrected(Trim(title.value))
  }

  lemma CentreCorrectedTotal(t: string)
    ensures |t| <= TotalWidth - 2 ==> |CentreCorrected(t)| == TotalWidth && Centred(CentreCorrected(t), t)
    ensures |t| >= TotalWidth - 1 ==> CentreCorrected(t) == "= " + t + " ="
    ensures Centre(t).Success? ==> Centre(t).value == CentreCorrected(t)
  {
    if |t| <= TotalWidth - 2 {
      CentreFits(t);
      var slack := TotalWidth - 2 - |t|;
      var left := slack / 2;
      assert CentreCorrected(t) == Replicate('=', left) + " " + t + " " + Replicate('=', slack - left);
    }
  }

  /** The corrected builder never fails: a blank title gives the plain rule,
      a fitting title is centred in `TotalWidth` characters, any longer one
      (49 included) falls back to `= title =`, and wherever the code as
      written succeeds the two agree. */
  lemma TitledCorrectedTotal(title: Option<string>)
    ensures IsNullOrWhiteSpace(title) ==> TitledCorrected(title) == Plain()
    ensures !IsNullOrWhiteSpace(title) && |Trim(title.value)| <= TotalWidth - 2 ==>
      |TitledCorrected(title)| == TotalWidth && Centred(TitledCorrected(title), Trim(title.value))
    ensures !IsNullOrWhiteSpace(title) && |Trim(title.value)| >= TotalWidth - 1 ==>
      TitledCorrected(title) == "= " + Trim(title.value) + " ="
    ensures Titled(title).Success? ==> Titled(title).value == TitledCorrected(title)
  {
    if !IsNullOrWhiteSpace(title) {
      CentreCorrectedTotal(Trim(title.value));
    }
  }
}
