// The change-password dialog of the frontend: the checks its submit handler runs, the rule that
// enables its submit button, and the strength meter shown under the new password.

module ChangePasswordForm {
  import opened Wrappers

  const MinLength := 6

  const AllRequired := "Todos los campos son requeridos"
  const TooShort := "La nueva contraseña debe tener al menos 6 caracteres"
  const Mismatch := "Las contraseñas nuevas no coinciden"
  const Unchanged := "La nueva contraseña debe ser diferente a la actual"

  datatype PasswordForm = PasswordForm(currentPassword: string, newPassword: string, confirmPassword: string)

  /** The submit handler's checks, in its order: the error notification of the first one that
      fails, or None when the (simulated) change goes ahead. */
  function SubmitCheck(f: PasswordForm): (r: Option<string>)
    ensures r.None? <==>
      && f.currentPassword != [] && f.newPassword != [] && f.confirmPassword != []
      && |f.newPassword| >= MinLength
      && f.newPassword == f.confirmPassword
      && f.currentPassword != f.newPassword
    ensures r.Some? ==> r.value in {AllRequired, TooShort, Mismatch, Unchanged}
  {
    if f.currentPassword == [] || f.newPassword == [] || f.confirmPassword == [] then Some(AllRequired)
    else if |f.newPassword| < MinLength then Some(TooShort)
    else if f.newPassword != f.confirmPassword then Some(Mismatch)
    else if f.currentPassword == f.newPassword then Some(Unchanged)
    else None
  }

  /** Each check is reached only when the ones before it pass. */
  lemma CheckOrder(f: PasswordForm)
    ensures f.currentPassword == [] || f.newPassword == [] || f.confirmPassword == [] ==>
      SubmitCheck(f) == Some(AllRequired)
    ensures SubmitCheck(f) == Some(TooShort) <==>
      f.currentPassword != [] && f.newPassword != [] && f.confirmPassword != [] && |f.newPassword| < MinLength
    ensures SubmitCheck(f) == Some(Mismatch) ==> |f.newPassword| >= MinLength && f.newPassword != f.confirmPassword
    ensures SubmitCheck(f) == Some(Unchanged) <==>
      f.currentPassword != [] && |f.newPassword| >= MinLength && f.newPassword == f.confirmPassword
      && f.currentPassword == f.newPassword
  {
  }

  /** The submit button is enabled when nothing is being submitted, all three fields are filled,
      the two new passwords match and the new one is long enough; it does not compare the new
      password with the current one. */
  predicate ButtonEnabled(f: PasswordForm, isSubmitting: bool) {
    && !isSubmitting
    && f.currentPassword != [] && f.newPassword != [] && f.confirmPassword != []
    && f.newPassword == f.confirmPassword
    && |f.newPassword| >= MinLength
  }

  /** The button and the handler agree except on one point: an enabled button leads either to the
      change or to the "must be different" notification, and every form the handler accepts has
      the button enabled when nothing is in flight. */
  lemma ButtonAgreesWithHandler(f: PasswordForm, isSubmitting: bool)
    ensures ButtonEnabled(f, isSubmitting) ==> SubmitCheck(f) in {None, Some(Unchanged)}
    ensures SubmitCheck(f).None? && !isSubmitting ==> ButtonEnabled(f, isSubmitting)
    ensures ButtonEnabled(f, isSubmitting) && SubmitCheck(f).Some? ==> f.currentPassword == f.newPassword
  {
  }

  // ----------------------------------------------------------------- strength meter

  datatype Strength = Strength(strength: nat, text: string)

  const StrengthTexts: seq<string> := ["", "Débil", "Moderada", "Fuerte", "Muy fuerte"]
  const SpecialChars := "!@#$%^&*(),.?\":{}|<>"

  predicate HasUpper(p: string) { exists i :: 0 <= i < |p| && 'A' <= p[i] <= 'Z' }
  predicate HasLower(p: string) { exists i :: 0 <= i < |p| && 'a' <= p[i] <= 'z' }
  predicate HasDigit(p: string) { exists i :: 0 <= i < |p| && '0' <= p[i] <= '9' }
  predicate HasSpecial(p: string) { exists i :: 0 <= i < |p| && p[i] in SpecialChars }

  function Count(b: bool): nat { if b then 1 else 0 }

  /** The meter: nothing for an empty password, "Muy débil" below six characters, and otherwise
      one point for each character class present (upper case, lower case, digit, special). */
  function PasswordStrength(p: string): (r: Strength)
    ensures r.strength <= 4
    ensures |p| == 0 ==> r == Strength(0, "")
    ensures 0 < |p| < MinLength <==> r == Strength(1, "Muy débil")
    ensures |p| >= MinLength ==>
      r.strength == Count(HasUpper(p)) + Count(HasLower(p)) + Count(HasDigit(p)) + Count(HasSpecial(p))
      && r.text == StrengthTexts[r.strength]
  {
    if |p| == 0 then Strength(0, "")
    else if |p| < MinLength then Strength(1, "Muy débil")
    else
      var s := Count(HasUpper(p)) + Count(HasLower(p)) + Count(HasDigit(p)) + Count(HasSpecial(p));
      Strength(s, StrengthTexts[s])
  }

  /** A password long enough for the handler that mixes all four classes gets the top mark, one
      made of digits only gets the lowest, and one with no character of any class (spaces, accented
      letters) shows the same blank meter as an empty field. */
  lemma StrengthExtremes(p: string)
    requires |p| >= MinLength
    ensures HasUpper(p) && HasLower(p) && HasDigit(p) && HasSpecial(p) ==> PasswordStrength(p) == Strength(4, "Muy fuerte")
    ensures (forall i :: 0 <= i < |p| ==> '0' <= p[i] <= '9') ==> PasswordStrength(p) == Strength(1, "Débil")
    ensures (forall i :: 0 <= i < |p| ==> p[i] == ' ') ==> PasswordStrength(p) == Strength(0, "")
  {
    if forall i :: 0 <= i < |p| ==> p[i] == ' ' {
      assert !HasSpecial(p) by {
        forall i | 0 <= i < |p| ensures p[i] !in SpecialChars {
          assert p[i] == ' ';
        }
      }
    }
    if forall i :: 0 <= i < |p| ==> '0' <= p[i] <= '9' {
      assert '0' <= p[0] <= '9';
      assert !HasSpecial(p) by {
        forall i | 0 <= i < |p| ensures p[i] !in SpecialChars {
          assert '0' <= p[i] <= '9';
        }
      }
    }
  }
}
