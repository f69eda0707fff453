/** The client-side form validators. Each returns `None` (the validator's `null`) when the value is
    acceptable, or the message to show. */
module Validation {
  import opened Wrappers
  import opened Text
  import Ledger
  import Expenses

  /** `Number(value)`: a number, or NaN when the value does not read as one. */
  datatype Numeric = NaN | Num(value: real)

  /** `validateAmount`: checks, in this order, not a number, negative, above 10,000. */
  function ValidateAmount(amount: Numeric): (r: Option<string>)
    ensures r.None? <==> amount.Num? && 0.0 <= amount.value <= 10000.0
    ensures amount.NaN? ==> r == Some("Amount must be a number")
    ensures amount.Num? && amount.value < 0.0 ==> r == Some("Amount cannot be negative")
    ensures amount.Num? && amount.value > 10000.0 ==> r == Some("Amount cannot exceed 10,000")
  {
    if amount.NaN? then Some("Amount must be a number")
    else if amount.value < 0.0 then Some("Amount cannot be negative")
    else if amount.value > 10000.0 then Some("Amount cannot exceed 10,000")
    else None
  }

  /** The client accepts a numeric amount exactly when the server's bound checks do, with the same
      message otherwise. */
  lemma AmountChecksAgree(x: real)
    ensures ValidateAmount(Num(x)).None? <==> Expenses.AmountError(x).None?
    ensures ValidateAmount(Num(x)).Some? ==>
      Expenses.AmountError(x) == Some(Ledger.BadRequest(ValidateAmount(Num(x)).value))
  {
  }

  /** A character of the class `[^\s@]`. */
  predicate InPart(c: char)
  {
    c != '@' && !IsWhitespace(c)
  }

  /** The shape `^[^\s@]+@[^\s@]+\.[^\s@]+$`: a non-empty local part, `@`, a non-empty domain, a dot,
      and a non-empty last label, with no white space and no other `@` anywhere. */
  ghost predicate EmailShape(s: string)
  {
    exists at, dot ::
      && 0 < at && at + 1 < dot && dot + 1 < |s| && s[at] == '@' && s[dot] == '.'
      && (forall k :: 0 <= k < |s| && k != at ==> InPart(s[k]))
  }

  /** The position of the first `@`, or the length when there is none. */
  function FirstAt(s: string): (i: nat)
    ensures i <= |s|
    ensures i < |s| ==> s[i] == '@'
    ensures forall k :: 0 <= k < i ==> s[k] != '@'
  {
    if s == [] then 0
    else if s[0] == '@' then 0
    else 1 + FirstAt(s[1..])
  }

  /** The regular expression's test, decided by splitting at the first `@`. */
  function MatchesEmail(s: string): bool
  {
    var at := FirstAt(s);
    && 0 < at < |s|
    && (forall k :: 0 <= k < |s| && k != at ==> InPart(s[k]))
    && exists dot :: at + 1 < dot < |s| - 1 && s[dot] == '.'
  }

  /** Splitting at the first `@` decides the shape: there is only one `@` to split at. */
  lemma MatchesEmailIff(s: string)
    ensures MatchesEmail(s) <==> EmailShape(s)
  {
    if EmailShape(s) {
      var at, dot :| && 0 < at && at + 1 < dot && dot + 1 < |s| && s[at] == '@' && s[dot] == '.'
                     && (forall k :: 0 <= k < |s| && k != at ==> InPart(s[k]));
      var first := FirstAt(s);
      assert first <= at;
      assert first == at;
      assert at + 1 < dot < |s| - 1 && s[dot] == '.';
    }
  }

  /** `validateEmail`: required, then the shape. */
  function ValidateEmail(email: string): (r: Option<string>)
    ensures r.None? <==> email != "" && EmailShape(email)
    ensures email == "" ==> r == Some("Email is required")
    ensures email != "" && !EmailShape(email) ==> r == Some("Invalid email address")
  {
    MatchesEmailIff(email);
    if email == "" then Some("Email is required")
    else if !MatchesEmail(email) then Some("Invalid email address")
    else None
  }

  /** `validateRequired(value, fieldName = 'This field')`: an error when the value is empty or only
      white space, naming the field. */
  function ValidateRequired(value: string, fieldName: Option<string>): (r: Option<string>)
    ensures r.Some? <==> IsBlank(value)
    ensures r.Some? && fieldName.None? ==> r.value == "This field is required"
    ensures r.Some? && fieldName.Some? ==> r.value == fieldName.value + " is required"
  {
    var name := if fieldName.None? then "This field" else fieldName.value;
    if value == "" || IsBlank(value) then Some(name + " is required") else None
  }

  /** `validatePassword`: required, then at least six characters. */
  function ValidatePassword(password: string): (r: Option<string>)
    ensures r.None? <==> |password| >= 6
    ensures password == "" ==> r == Some("Password is required")
    ensures 0 < |password| < 6 ==> r == Some("Password must be at least 6 characters")
  {
    if password == "" then Some("Password is required")
    else if |password| < 6 then Some("Password must be at least 6 characters")
    else None
  }
}
