/** The client's field validators (client/src/utils/form-validation.ts). Each returns the first
    failing message, or `None` for JavaScript's `null`. A regular expression of the source is
    implemented by a direct scan and proved equal to a reference definition of the language. */
module FormValidation {
  import opened Wrappers
  import opened Strings

  const EmailRequired := "Email is required"
  const EmailInvalid := "Please enter a valid email address"
  const PasswordRequired := "Password is required"
  const PasswordTooShort := "Password must be at least 8 characters long"
  const PasswordNoLower := "Password must contain at least one lowercase letter"
  const PasswordNoUpper := "Password must contain at least one uppercase letter"
  const PasswordNoDigit := "Password must contain at least one number"
  const PhoneInvalid := "Please enter a valid phone number"
  const PincodeInvalid := "Pincode must be 6 digits"

  // ---------------------------------------------------------------- email

  /** A character of the class `[^\s@]`. */
  predicate EmailChar(c: char) {
    !IsWhitespace(c) && c != '@'
  }

  predicate AllEmailChars(s: string) {
    forall i | 0 <= i < |s| :: EmailChar(s[i])
  }

  /** A match of `[^\s@]+`. */
  predicate Segment(s: string) {
    |s| > 0 && AllEmailChars(s)
  }

  /** The language of `/^[^\s@]+@[^\s@]+\.[^\s@]+$/`: three segments joined by "@" and ".". */
  ghost predicate IsEmailAddress(s: string) {
    exists local, host, tld :: Segment(local) && Segment(host) && Segment(tld) && s == local + "@" + (host + "." + tld)
  }

  /** The part after "@": free of whitespace and "@", with a "." that is neither its first nor its
      last character. */
  predicate DomainShape(d: string) {
    AllEmailChars(d) && exists j | 0 < j < |d| - 1 :: d[j] == '.'
  }

  /** The scan the regular expression amounts to: a non-empty local part up to an "@", then a
      domain of the shape above. */
  predicate EmailShape(s: string) {
    exists k | 0 < k < |s| :: s[k] == '@' && AllEmailChars(s[..k]) && DomainShape(s[k + 1..])
  }

  lemma EmailShapeIff(s: string)
    ensures EmailShape(s) <==> IsEmailAddress(s)
  {
    if EmailShape(s) {
      ShapeIsAddress(s);
    }
    if IsEmailAddress(s) {
      var local, host, tld :| Segment(local) && Segment(host) && Segment(tld) && s == local + "@" + (host + "." + tld);
      AddressHasShape(local, host, tld);
    }
  }

  /** A prefix and a suffix of a string free of whitespace and "@" are free of them too. */
  lemma PartsChars(d: string, j: nat)
    requires AllEmailChars(d) && j < |d|
    ensures AllEmailChars(d[..j]) && AllEmailChars(d[j + 1..])
  {
    forall i | 0 <= i < j ensures EmailChar(d[..j][i]) {
      assert d[..j][i] == d[i];
    }
    var t := d[j + 1..];
    forall i | 0 <= i < |t| ensures EmailChar(t[i]) {
      assert t[i] == d[j + 1 + i];
    }
  }

  /** A string is what precedes a position, the character there, and what follows. */
  lemma SplitAt(s: string, k: nat, sep: string)
    requires k < |s| && sep == [s[k]]
    ensures s == s[..k] + sep + s[k + 1..]
  {
  }

  /** The witnesses of the language's three segments. */
  lemma AddressOf(s: string, local: string, host: string, tld: string)
    requires Segment(local) && Segment(host) && Segment(tld) && s == local + "@" + (host + "." + tld)
    ensures IsEmailAddress(s)
  {
  }

  lemma ShapeIsAddress(s: string)
    requires EmailShape(s)
    ensures IsEmailAddress(s)
  {
    var k :| 0 < k < |s| && s[k] == '@' && AllEmailChars(s[..k]) && DomainShape(s[k + 1..]);
    var local, d := s[..k], s[k + 1..];
    var j :| 0 < j < |d| - 1 && d[j] == '.';
    var host, tld := d[..j], d[j + 1..];
    PartsChars(d, j);
    SplitAt(s, k, "@");
    SplitAt(d, j, ".");
    AddressOf(s, local, host, tld);
  }

  lemma AddressHasShape(local: string, host: string, tld: string)
    requires Segment(local) && Segment(host) && Segment(tld)
    ensures EmailShape(local + "@" + (host + "." + tld))
  {
    var s := local + "@" + (host + "." + tld);
    var k := |local|;
    var d := host + "." + tld;
    assert s == local + "@" + d;
    assert s[k] == '@';
    assert s[..k] == local;
    assert s[k + 1..] == d;
    assert d[|host|] == '.';
    assert AllEmailChars(d) by {
      forall i | 0 <= i < |d| ensures EmailChar(d[i]) {
        if i < |host| {
          assert d[i] == host[i];
        } else if i > |host| {
          assert d[i] == tld[i - |host| - 1];
        }
      }
    }
    assert DomainShape(d);
  }

  /** `validateEmail(email)` */
  function ValidateEmail(email: string): (r: Option<string>)
    ensures email == "" ==> r == Some(EmailRequired)
    ensures email != "" ==> (r.None? <==> IsEmailAddress(email))
    ensures email != "" && r.Some? ==> r.value == EmailInvalid
  {
    EmailShapeIff(email);
    if email == "" then Some(EmailRequired)
    else if !EmailShape(email) then Some(EmailInvalid)
    else None
  }

  /** A valid address is non-empty and has exactly one "@". */
  lemma ValidEmailHasOneAt(email: string)
    requires ValidateEmail(email).None?
    ensures email != "" && exists k | 0 <= k < |email| :: email[k] == '@'
    ensures forall k1, k2 | 0 <= k1 < k2 < |email| :: !(email[k1] == '@' && email[k2] == '@')
  {
    EmailShapeIff(email);
    var k :| 0 < k < |email| && email[k] == '@' && AllEmailChars(email[..k]) && DomainShape(email[k + 1..]);
    forall k1, k2 | 0 <= k1 < k2 < |email| ensures !(email[k1] == '@' && email[k2] == '@') {
      if k1 < k {
        assert email[k1] == email[..k][k1];
      } else if k1 > k {
        assert email[k1] == email[k + 1..][k1 - k - 1];
      } else {
        assert email[k2] == email[k + 1..][k2 - k - 1];
      }
    }
  }

  // ---------------------------------------------------------------- password

  predicate HasLower(s: string) {
    exists i | 0 <= i < |s| :: IsLower(s[i])
  }

  predicate HasUpper(s: string) {
    exists i | 0 <= i < |s| :: IsUpper(s[i])
  }

  predicate HasDigit(s: string) {
    exists i | 0 <= i < |s| :: IsDigit(s[i])
  }

  /** The password policy the chain of tests enforces. */
  predicate StrongPassword(p: string) {
    JsLength(p) >= 8 && HasLower(p) && HasUpper(p) && HasDigit(p)
  }

  /** `validatePassword(password)`: the first failing test, in the order empty, short, no
      lowercase, no uppercase, no digit. */
  function ValidatePassword(password: string): (r: Option<string>)
    ensures r.None? <==> StrongPassword(password)
    ensures password == "" ==> r == Some(PasswordRequired)
    ensures password != "" && JsLength(password) < 8 ==> r == Some(PasswordTooShort)
    ensures JsLength(password) >= 8 && !HasLower(password) ==> r == Some(PasswordNoLower)
    ensures JsLength(password) >= 8 && HasLower(password) && !HasUpper(password) ==> r == Some(PasswordNoUpper)
    ensures JsLength(password) >= 8 && HasLower(password) && HasUpper(password) && !HasDigit(password) ==>
      r == Some(PasswordNoDigit)
  {
    if password == "" then Some(PasswordRequired)
    else if JsLength(password) < 8 then Some(PasswordTooShort)
    else if !HasLower(password) then Some(PasswordNoLower)
    else if !HasUpper(password) then Some(PasswordNoUpper)
    else if !HasDigit(password) then Some(PasswordNoDigit)
    else None
  }

  /** A character above U+FFFF counts twice towards the minimum length, as in `password.length`. */
  lemma AstralCharactersCountTwice()
    ensures ValidatePassword("\U{1F600}\U{1F600}\U{1F600}\U{1F600}Aa1").None?
    ensures ValidatePassword("\U{1F600}\U{1F600}Aa1") == Some(PasswordTooShort)
  {
    var s := "\U{1F600}\U{1F600}\U{1F600}\U{1F600}Aa1";
    assert IsLower(s[5]) && IsUpper(s[4]) && IsDigit(s[6]);
  }

  // ---------------------------------------------------------------- required

  /** `validateRequired(value, fieldName)`: the value has a non-blank character. */
  function ValidateRequired(value: string, fieldName: string): (r: Option<string>)
    ensures r.None? <==> HasNonWhitespace(value)
    ensures r.Some? ==> r.value == fieldName + " is required"
  {
    TrimEmptyIff(value);
    if value == "" || Trim(value) == "" then Some(fieldName + " is required") else None
  }

  // ---------------------------------------------------------------- phone

  /** A character of the class `[\d\s\-\(\)]`. */
  predicate PhoneChar(c: char) {
    IsDigit(c) || IsWhitespace(c) || c == '-' || c == '(' || c == ')'
  }

  predicate AllPhoneChars(s: string) {
    forall i | 0 <= i < |s| :: PhoneChar(s[i])
  }

  /** The language of `/^[+]?[\d\s\-\(\)]{10,}$/`. */
  ghost predicate IsPhoneNumber(s: string) {
    exists sign, body :: (sign == "" || sign == "+") && |body| >= 10 && AllPhoneChars(body) && s == sign + body
  }

  /** What follows the optional leading "+". */
  function PhoneBody(s: string): (b: string)
    ensures b == s || (s != [] && s[0] == '+' && b == s[1..])
  {
    if s != [] && s[0] == '+' then s[1..] else s
  }

  lemma PhoneShapeIff(s: string)
    ensures (|PhoneBody(s)| >= 10 && AllPhoneChars(PhoneBody(s))) <==> IsPhoneNumber(s)
  {
    var b := PhoneBody(s);
    if |b| >= 10 && AllPhoneChars(b) {
      if s != [] && s[0] == '+' {
        assert s == "+" + b;
      } else {
        assert s == "" + b;
      }
    }
    if IsPhoneNumber(s) {
      var sign, body :| (sign == "" || sign == "+") && |body| >= 10 && AllPhoneChars(body) && s == sign + body;
      if sign == "" {
        assert s == body;
        assert PhoneChar(body[0]);
      } else {
        assert s[1..] == body;
      }
    }
  }

  /** `validatePhone(phone)`: an empty value is accepted, since the field is optional. */
  function ValidatePhone(phone: string): (r: Option<string>)
    ensures phone == "" ==> r.None?
    ensures phone != "" ==> (r.None? <==> IsPhoneNumber(phone))
    ensures r.Some? ==> r.value == PhoneInvalid
  {
    PhoneShapeIff(phone);
    var body := PhoneBody(phone);
    if phone == "" then None
    else if !(|body| >= 10 && AllPhoneChars(body)) then Some(PhoneInvalid)
    else None
  }

  // ---------------------------------------------------------------- pincode

  /** `validatePincode(pincode)`: empty, or `/^\d{6}$/`. */
  function ValidatePincode(pincode: string): (r: Option<string>)
    ensures pincode == "" ==> r.None?
    ensures pincode != "" ==> (r.None? <==> IsSixDigits(pincode))
    ensures r.Some? ==> r.value == PincodeInvalid
  {
    if pincode == "" then None
    else if !IsSixDigits(pincode) then Some(PincodeInvalid)
    else None
  }
}
