/**
 * What the two credential forms share: the field errors their schemas report
 * and the state of their submit button.
 */
module Forms {

  /** One failed schema rule, with the message shown under the field. */
  datatype FieldError = FieldError(field: string, message: string)

  const InvalidEmailMessage := "Invalid email address"
  const ShortPasswordMessage := "Password must be at least 6 characters"
  const MinPasswordLength := 6

  /** The email field's rule; whether the address is well formed is decided outside the model. */
  function EmailErrors(emailWellFormed: bool): (errors: seq<FieldError>)
    ensures errors == [] <==> emailWellFormed
  {
    if emailWellFormed then [] else [FieldError("email", InvalidEmailMessage)]
  }

  /** A character outside the Basic Multilingual Plane takes a surrogate pair in UTF-16. */
  predicate IsAstral(c: char)
  {
    c as int > 0xFFFF
  }

  /**
   * JavaScript's `.length` of a string: the number of UTF-16 code units, one
   * for every character of the Basic Multilingual Plane and two for any other.
   */
  function Utf16Length(s: string): (n: nat)
    ensures |s| <= n <= 2 * |s|
    ensures n == |s| <==> forall i :: 0 <= i < |s| ==> !IsAstral(s[i])
  {
    if s == [] then 0
    else
      var n := (if IsAstral(s[0]) then 2 else 1) + Utf16Length(s[1..]);
      assert forall i :: 1 <= i < |s| ==> s[i] == s[1..][i - 1];
      n
  }

  /** `.length` adds up over concatenation. */
  lemma {:induction false} Utf16LengthAppend(a: string, b: string)
    ensures Utf16Length(a + b) == Utf16Length(a) + Utf16Length(b)
  {
    if a == [] {
      assert a + b == b;
    } else {
      assert (a + b)[1..] == a[1..] + b;
      Utf16LengthAppend(a[1..], b);
    }
  }

  /** `z.string().min(6, ...)` on the password field, which compares `.length`. */
  function PasswordErrors(password: string): (errors: seq<FieldError>)
    ensures errors == [] <==> Utf16Length(password) >= MinPasswordLength
    ensures errors != [] ==> errors == [FieldError("password", ShortPasswordMessage)]
  {
    if Utf16Length(password) >= MinPasswordLength then [] else [FieldError("password", ShortPasswordMessage)]
  }

  /** Three emoji are six code units long, so the length rule lets them through. */
  lemma AstralPasswordPasses()
    ensures |"\U{1F600}\U{1F600}\U{1F600}"| == 3
    ensures PasswordErrors("\U{1F600}\U{1F600}\U{1F600}") == []
  {
    var e := "\U{1F600}\U{1F600}\U{1F600}";
    assert e[2..] == "\U{1F600}" && e[1..] == "\U{1F600}\U{1F600}";
    assert Utf16Length(e) == 6;
  }

  /** The submit button as rendered: whether it is disabled and its caption. */
  datatype SubmitButton = SubmitButton(disabled: bool, caption: string)
}
