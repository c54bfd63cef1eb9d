/** The password meter of the sign-up form
    (frontend/src/components/PasswordStrengthMeter.jsx): a 0-4 score, its
    colour, label and bar width, and the five-item checklist. */
module PasswordStrength {
  import opened JsText

  /** The class `[!@#$%^&*(),.?":{}|<>]`. */
  predicate IsSpecial(c: char)
  {
    || c == '!' || c == '@' || c == '#' || c == '$' || c == '%' || c == '^' || c == '&'
    || c == '*' || c == '(' || c == ')' || c == ',' || c == '.' || c == '?' || c == '"'
    || c == ':' || c == '{' || c == '}' || c == '|' || c == '<' || c == '>'
  }

  /** `/[A-Z]/`, `/[a-z]/` and `/\d/`: somewhere in the string. */
  predicate HasUpper(p: string) { exists i :: 0 <= i < |p| && IsAsciiUpper(p[i]) }
  predicate HasLower(p: string) { exists i :: 0 <= i < |p| && IsAsciiLower(p[i]) }
  predicate HasDigit(p: string) { exists i :: 0 <= i < |p| && IsAsciiDigit(p[i]) }
  predicate HasSpecial(p: string) { exists i :: 0 <= i < |p| && IsSpecial(p[i]) }

  function Point(b: bool): nat
  {
    if b then 1 else 0
  }

  /** The score the four checks of `getStrength` add up to before the cap. */
  function Score(p: string): (s: nat)
  {
    Point(|p| >= 8) + Point(HasUpper(p)) + Point(HasLower(p)) + Point(HasDigit(p) && HasSpecial(p))
  }

  /** `getStrength(pass)`: one point per satisfied check, capped at four. */
  method GetStrength(pass: string) returns (strength: nat)
    ensures strength == Score(pass)
    ensures strength <= 4
  {
    strength := 0;
    if |pass| >= 8 { strength := strength + 1; }
    if HasUpper(pass) { strength := strength + 1; }
    if HasLower(pass) { strength := strength + 1; }
    if HasDigit(pass) && HasSpecial(pass) { strength := strength + 1; }
    strength := if strength < 4 then strength else 4;
  }

  /** The score is at most four, so the `Math.min` cap never changes it;
      the fourth point needs a digit and a special character together. */
  lemma ScoreBounds(p: string)
    ensures Score(p) <= 4
    ensures Score(p) == 4 ==> HasDigit(p) && HasSpecial(p)
    ensures !HasSpecial(p) ==> Score(p) <= 3
  {
  }

  /** A digit alone earns nothing: appending a digit to a password of
      eight or more characters with no special character leaves the score
      as it was. */
  lemma DigitAloneAddsNothing(p: string, c: char)
    requires IsAsciiDigit(c) && !HasSpecial(p) && |p| >= 8
    ensures Score(p + [c]) == Score(p)
  {
    var q := p + [c];
    assert forall i :: 0 <= i < |q| ==> q[i] == if i < |p| then p[i] else c;
    assert !HasSpecial(q);
    assert HasUpper(q) <==> HasUpper(p);
    assert HasLower(q) <==> HasLower(p);
  }

  /** Nor does a special character alone: appending one to a password of
      eight or more characters with no digit leaves the score as it was. */
  lemma SpecialAloneAddsNothing(p: string, c: char)
    requires IsSpecial(c) && !HasDigit(p) && |p| >= 8
    ensures Score(p + [c]) == Score(p)
  {
    var q := p + [c];
    assert forall i :: 0 <= i < |q| ==> q[i] == if i < |p| then p[i] else c;
    assert !HasDigit(q);
    assert HasUpper(q) <==> HasUpper(p);
    assert HasLower(q) <==> HasLower(p);
  }

  /** Appending characters never lowers the score: every check is a length
      bound or a "contains". */
  lemma ScoreMonotone(p: string, q: string)
    ensures Score(p) <= Score(p + q)
  {
    if HasUpper(p) {
      var i :| 0 <= i < |p| && IsAsciiUpper(p[i]);
      assert (p + q)[i] == p[i];
    }
    if HasLower(p) {
      var i :| 0 <= i < |p| && IsAsciiLower(p[i]);
      assert (p + q)[i] == p[i];
    }
    if HasDigit(p) {
      var i :| 0 <= i < |p| && IsAsciiDigit(p[i]);
      assert (p + q)[i] == p[i];
    }
    if HasSpecial(p) {
      var i :| 0 <= i < |p| && IsSpecial(p[i]);
      assert (p + q)[i] == p[i];
    }
  }

  datatype Criterion = Criterion(caption: string, valid: bool)

  /** The checklist of `PasswordCriteria`: five independent checks, the
      digit and the special character separately. */
  function Criteria(p: string): (cs: seq<Criterion>)
    ensures |cs| == 5
    ensures cs[0] == Criterion("At least 8 characters", |p| >= 8)
    ensures cs[1] == Criterion("Contains uppercase letter", HasUpper(p))
    ensures cs[2] == Criterion("Contains lowercase letter", HasLower(p))
    ensures cs[3] == Criterion("Contains number", HasDigit(p))
    ensures cs[4] == Criterion("Contains special character", HasSpecial(p))
  {
    [ Criterion("At least 8 characters", |p| >= 8),
      Criterion("Contains uppercase letter", HasUpper(p)),
      Criterion("Contains lowercase letter", HasLower(p)),
      Criterion("Contains number", HasDigit(p)),
      Criterion("Contains special character", HasSpecial(p)) ]
  }

  /** The meter is full exactly when the whole checklist is ticked. */
  lemma FullScoreIffAllCriteria(p: string)
    ensures Score(p) == 4 <==> forall i :: 0 <= i < 5 ==> Criteria(p)[i].valid
  {
    var cs := Criteria(p);
    assert (forall i :: 0 <= i < 5 ==> cs[i].valid) <==>
           cs[0].valid && cs[1].valid && cs[2].valid && cs[3].valid && cs[4].valid;
  }

  /** `getColor(strengthScore)`. */
  function Color(score: int): (c: string)
    ensures score <= 1 ==> c == "bg-red-500"
    ensures score == 2 ==> c == "bg-yellow-500"
    ensures score == 3 ==> c == "bg-blue-500"
    ensures score >= 4 ==> c == "bg-green-500"
  {
    if score <= 1 then "bg-red-500"
    else if score == 2 then "bg-yellow-500"
    else if score == 3 then "bg-blue-500"
    else "bg-green-500"
  }

  /** `getStrengthText(strengthScore)`, which also reads the password. */
  function StrengthText(score: int, password: string): (text: string)
    ensures text == "" <==> score < 0 || score > 4 || (score == 0 && password == "")
    ensures text in {"", "Weak", "Fair", "Good", "Strong"}
  {
    if score == 0 && |password| > 0 then "Weak"
    else if score == 1 then "Weak"
    else if score == 2 then "Fair"
    else if score == 3 then "Good"
    else if score == 4 then "Strong"
    else ""
  }

  /** On the meter's own score the label is empty exactly for the empty
      password, "Weak" for scores up to one and the names above. */
  lemma StrengthTextOfScore(p: string)
    ensures StrengthText(Score(p), p) == "" <==> p == ""
    ensures Score(p) <= 1 && p != "" ==> StrengthText(Score(p), p) == "Weak"
    ensures Score(p) == 2 ==> StrengthText(Score(p), p) == "Fair"
    ensures Score(p) == 3 ==> StrengthText(Score(p), p) == "Good"
    ensures Score(p) == 4 ==> StrengthText(Score(p), p) == "Strong"
  {
    if p == "" {
      assert !HasUpper(p) && !HasLower(p) && !HasDigit(p);
    }
  }

  /** The bar width `(strength / 4) * 100` percent. */
  function BarWidthPercent(strength: nat): (w: nat)
    requires strength <= 4
    ensures w * 4 == strength * 100
    ensures w <= 100
  {
    strength * 25
  }
}
