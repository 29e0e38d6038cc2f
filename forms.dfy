/**
 * The validation step of the simulated form submission in `fakeSubmit`
 * (scripts.js:349-395): every `[required]` input whose value, trimmed, is
 * empty gets the `error` class, every other one loses it, and the submission
 * goes on only when no input was blank.
 */
module Forms {

  /**
   * The characters `String.prototype.trim` strips: the ECMAScript
   * WhiteSpace and LineTerminator code points.
   */
  predicate IsTrimmable(c: char) {
    c in {'\U{0009}', '\U{000A}', '\U{000B}', '\U{000C}', '\U{000D}', '\U{0020}',
          '\U{00A0}', '\U{1680}', '\U{2000}', '\U{2001}', '\U{2002}', '\U{2003}',
          '\U{2004}', '\U{2005}', '\U{2006}', '\U{2007}', '\U{2008}', '\U{2009}',
          '\U{200A}', '\U{2028}', '\U{2029}', '\U{202F}', '\U{205F}', '\U{3000}',
          '\U{FEFF}'}
  }

  /** The input without its leading whitespace. */
  function TrimStart(s: string): (r: string)
    ensures |r| <= |s| && r == s[|s| - |r|..]
    ensures r == [] || !IsTrimmable(r[0])
    ensures forall i :: 0 <= i < |s| - |r| ==> IsTrimmable(s[i])
    decreases |s|
  {
    if s != [] && IsTrimmable(s[0]) then
      var r := TrimStart(s[1..]);
      assert s[1..][|s| - 1 - |r|..] == s[|s| - |r|..];
      assert forall i :: 1 <= i < |s| - |r| ==> s[i] == s[1..][i - 1];
      r
    else s
  }

  /** The input without its trailing whitespace. */
  function TrimEnd(s: string): (r: string)
    ensures |r| <= |s| && r == s[..|r|]
    ensures r == [] || !IsTrimmable(r[|r| - 1])
    ensures forall i :: |r| <= i < |s| ==> IsTrimmable(s[i])
    decreases |s|
  {
    if s != [] && IsTrimmable(s[|s| - 1]) then
      var r := TrimEnd(s[..|s| - 1]);
      assert s[..|s| - 1][..|r|] == s[..|r|];
      assert forall i :: |r| <= i < |s| - 1 ==> s[i] == s[..|s| - 1][i];
      r
    else s
  }

  /**
   * `String.prototype.trim`: a slice of the input that neither starts nor
   * ends with whitespace, empty exactly when the input is all whitespace.
   */
  function Trim(s: string): (r: string)
    ensures |r| <= |s|
    ensures r == [] || (!IsTrimmable(r[0]) && !IsTrimmable(r[|r| - 1]))
    ensures r == [] <==> forall i :: 0 <= i < |s| ==> IsTrimmable(s[i])
  {
    TrimEnd(TrimStart(s))
  }

  /** An input value made of whitespace only (the empty value included). */
  predicate IsBlank(value: string) {
    forall i :: 0 <= i < |value| ==> IsTrimmable(value[i])
  }

  /**
   * `!input.value.trim()` (scripts.js:359) holds, the trimmed value being the
   * empty, falsy string, exactly when the value is blank.
   */
  lemma BlankIffTrimmedEmpty(value: string)
    ensures IsBlank(value) <==> Trim(value) == ""
  {
  }

  /** The submission may proceed: no required input is blank. */
  predicate AllFilled(values: seq<string>) {
    forall i :: 0 <= i < |values| ==> !IsBlank(values[i])
  }

  /**
   * The `forEach` over the required inputs (scripts.js:355-365): the error
   * flag each input ends up with, and `isValid`.  Every input is visited,
   * also after the first blank one.
   */
  method ValidateRequired(values: seq<string>) returns (isValid: bool, errors: seq<bool>)
    ensures |errors| == |values|
    ensures forall i :: 0 <= i < |values| ==> (errors[i] <==> IsBlank(values[i]))
    ensures isValid <==> AllFilled(values)
  {
    isValid := true;
    errors := [];
    var i := 0;
    while i < |values|
      invariant 0 <= i <= |values|
      invariant |errors| == i
      invariant forall k :: 0 <= k < i ==> errors[k] == IsBlank(values[k])
      invariant isValid <==> forall k :: 0 <= k < i ==> !errors[k]
    {
      var blank := IsBlank(values[i]);
      if blank {
        isValid := false;
      }
      errors := errors + [blank];
      i := i + 1;
    }
  }

  /** Where a submit ends: blocked by the alert, silently (no submit button), or accepted. */
  datatype SubmitOutcome = Rejected | NoSubmitButton | Accepted

  /**
   * The synchronous part of the submit handler (scripts.js:353-379): validate,
   * stop with the alert when a field is blank, stop when the form has no
   * submit button, and otherwise accept (the button is disabled and the
   * delayed close of the enclosing modal is scheduled).
   */
  method FakeSubmit(values: seq<string>, hasSubmitButton: bool) returns (outcome: SubmitOutcome, errors: seq<bool>)
    ensures |errors| == |values|
    ensures forall i :: 0 <= i < |values| ==> (errors[i] <==> IsBlank(values[i]))
    ensures outcome == Rejected <==> !AllFilled(values)
    ensures outcome == Accepted <==> AllFilled(values) && hasSubmitButton
  {
    var isValid;
    isValid, errors := ValidateRequired(values);
    if !isValid {
      return Rejected, errors;
    }
    if !hasSubmitButton {
      return NoSubmitButton, errors;
    }
    outcome := Accepted;
  }
}
