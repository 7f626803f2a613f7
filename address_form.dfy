/**
  The delivery-address form (client/src/pages/Address.jsx): the e-mail
  pattern, the required-field check, and the one-time-password gate in front
  of `POST /api/address`. The address lives in a shared context whose fields
  are strings; a field the context does not hold reads as "". The outcome of
  each request is a parameter of the handler that sends it.
 */
module AddressForm {
  import opened Js

  /** A character the pattern's `[^\s@]` accepts. */
  predicate Plain(c: char)
  {
    !IsSpace(c) && c != '@'
  }

  /** A non-empty run of `[^\s@]` characters. */
  predicate PlainRun(t: string)
  {
    t != [] && forall j :: 0 <= j < |t| ==> Plain(t[j])
  }

  /** The text matches `^[^\s@]+@[^\s@]+\.[^\s@]+$`. */
  ghost predicate MatchesPattern(s: string)
  {
    exists a, b, c :: PlainRun(a) && PlainRun(b) && PlainRun(c) && s == a + "@" + b + "." + c
  }

  /** `emailRegex.test(s)`, by positions: no white space, exactly one "@"
      and not first, and a "." at least two places after it and not last. */
  predicate EmailOk(s: string)
  {
    (forall j :: 0 <= j < |s| ==> !IsSpace(s[j]))
    && exists i :: 0 < i < |s| && s[i] == '@' && (forall j :: 0 <= j < |s| && s[j] == '@' ==> j == i)
         && exists k :: i + 1 < k < |s| - 1 && s[k] == '.'
  }

  /** The test accepts exactly the texts the pattern matches. */
  lemma EmailOkIffPattern(s: string)
    ensures EmailOk(s) <==> MatchesPattern(s)
  {
    if EmailOk(s) {
      OkHasPattern(s);
    }
    if MatchesPattern(s) {
      var a, b, c :| PlainRun(a) && PlainRun(b) && PlainRun(c) && s == a + "@" + b + "." + c;
      PatternIsOk(a, b, c);
    }
  }

  lemma PatternIsOk(a: string, b: string, c: string)
    requires PlainRun(a) && PlainRun(b) && PlainRun(c)
    ensures EmailOk(a + "@" + b + "." + c)
  {
    var s := a + "@" + b + "." + c;
    var i, k := |a|, |a| + 1 + |b|;
    forall j | 0 <= j < |s| ensures !IsSpace(s[j]) && (s[j] == '@' ==> j == i) {
      if j < i {
        assert s[j] == a[j];
      } else if i < j < k {
        assert s[j] == b[j - i - 1];
      } else if k < j {
        assert s[j] == c[j - k - 1];
      }
    }
    assert s[i] == '@' && s[k] == '.';
  }

  lemma OkHasPattern(s: string)
    requires EmailOk(s)
    ensures MatchesPattern(s)
  {
    var i :| 0 < i < |s| && s[i] == '@' && (forall j :: 0 <= j < |s| && s[j] == '@' ==> j == i)
             && exists k :: i + 1 < k < |s| - 1 && s[k] == '.';
    var k :| i + 1 < k < |s| - 1 && s[k] == '.';
    var a, b, c := s[..i], s[i + 1..k], s[k + 1..];
    assert s == a + "@" + b + "." + c;
    forall j | 0 <= j < |b| ensures Plain(b[j]) {
      assert b[j] == s[i + 1 + j];
    }
    forall j | 0 <= j < |c| ensures Plain(c[j]) {
      assert c[j] == s[k + 1 + j];
    }
    assert PlainRun(a) && PlainRun(b) && PlainRun(c);
  }

  /** The fields the form requires, in the order they are checked. */
  const RequiredFields: seq<string> :=
    ["firstname", "lastname", "email", "street", "city", "state", "zipcode", "country", "phone"]

  /** `address[f]`, with "" for a field the context does not hold. */
  function Field(address: map<string, string>, f: string): string
  {
    if f in address then address[f] else ""
  }

  /** `toUpperCase` on the ASCII letters the field names are made of. */
  function UpperChar(c: char): char
  {
    if 'a' <= c <= 'z' then (c as int - 32) as char else c
  }

  /** `field.charAt(0).toUpperCase() + field.slice(1) + " required"` */
  function RequiredMessage(field: string): string
  {
    (if field == "" then "" else [UpperChar(field[0])] + field[1..]) + " required"
  }

  const InvalidEmail: string := "Invalid email format"

  /** The errors of the first pass: one per empty field among `fields`. */
  function RequiredErrors(fields: seq<string>, address: map<string, string>): (errs: map<string, string>)
    ensures forall f :: f in errs <==> f in fields && Field(address, f) == ""
    ensures forall f :: f in errs ==> errs[f] == RequiredMessage(f)
  {
    if fields == [] then map[]
    else
      var f := fields[|fields| - 1];
      var errs := RequiredErrors(fields[..|fields| - 1], address);
      assert fields == fields[..|fields| - 1] + [f];
      if Field(address, f) == "" then errs[f := RequiredMessage(f)] else errs
  }

  /** validate's error object: each empty required field reports itself as
      required, and a filled e-mail the pattern rejects reports the format. */
  function Errors(address: map<string, string>): (errs: map<string, string>)
    ensures forall f :: f in errs <==>
              (f in RequiredFields && Field(address, f) == "") || (f == "email" && !EmailOk(Field(address, "email")))
    ensures forall f :: f in errs ==>
              errs[f] == if f == "email" && Field(address, f) != "" then InvalidEmail else RequiredMessage(f)
  {
    var errs := RequiredErrors(RequiredFields, address);
    var email := Field(address, "email");
    assert "email" in RequiredFields;
    if email != "" && !EmailOk(email) then errs["email" := InvalidEmail] else errs
  }

  /** The form is valid exactly when every required field is filled and the
      e-mail matches the pattern. */
  lemma ValidIff(address: map<string, string>)
    ensures Errors(address) == map[] <==>
              (forall f :: f in RequiredFields ==> Field(address, f) != "") && EmailOk(Field(address, "email"))
  {
    var errs := Errors(address);
    if (forall f :: f in RequiredFields ==> Field(address, f) != "") && EmailOk(Field(address, "email")) {
      assert errs.Keys == {};
    }
  }

  /** validate's `forEach`: one error per empty field, in order. */
  method MissingFields(fields: seq<string>, address: map<string, string>) returns (errs: map<string, string>)
    ensures errs == RequiredErrors(fields, address)
  {
    errs := map[];
    for n := 0 to |fields|
      invariant errs == RequiredErrors(fields[..n], address)
    {
      assert fields[..n + 1][..n] == fields[..n];
      var field := fields[n];
      if Field(address, field) == "" {
        errs := errs[field := RequiredMessage(field)];
      }
    }
    assert fields[..|fields|] == fields;
  }

  /** validate's error object: the required fields, then the e-mail format. */
  method CollectErrors(address: map<string, string>) returns (errs: map<string, string>)
    ensures errs == Errors(address)
  {
    errs := MissingFields(RequiredFields, address);
    var email := Field(address, "email");
    if email != "" && !EmailOk(email) {
      errs := errs["email" := InvalidEmail];
    }
  }

  /** The body posted to `/api/address`: exactly the nine form fields. */
  function NewAddress(address: map<string, string>): (body: map<string, string>)
    ensures body.Keys == set f | f in RequiredFields
    ensures forall f :: f in body ==> body[f] == Field(address, f)
  {
    map f | f in RequiredFields :: Field(address, f)
  }

  /** The requests the form sends. */
  datatype Request =
    | SendOtp(email: string)
    | CheckOtp(email: string, otp: string)
    | SaveAddress(body: map<string, string>)

  /** `err.response?.data?.message || fallback` */
  function Reason(message: Option<string>, fallback: string): (r: string)
    ensures r == fallback || message == Some(r)
    ensures message.None? ==> r == fallback
  {
    if message.Some? && message.value != "" then message.value else fallback
  }

  const ValidEmailNeeded: string := "Please enter a valid email"
  const OtpSentStatus: string := "OTP sent to your email"
  const OtpNeeded: string := "Please enter the OTP"
  const VerifiedStatus: string := "Email verified successfully!"
  const VerifyFirst: string := "Please verify your email before submitting"

  /** The form's state. `verifiedFor` records the e-mail the server last
      accepted a code for. */
  class AddressPage {
    var address: map<string, string>
    var otp: string
    var errors: map<string, string>
    var otpSent: bool
    var otpVerified: bool
    var status: string
    ghost var verifiedFor: Option<string>

    /** A verified form still shows the e-mail that was verified. */
    ghost predicate VerifiedCurrent()
      reads this
    {
      otpVerified ==> verifiedFor == Some(Field(address, "email"))
    }

    constructor (address: map<string, string>)
      ensures this.address == address && otp == "" && errors == map[] && status == ""
      ensures !otpSent && !otpVerified && verifiedFor == None && VerifiedCurrent()
    {
      this.address := address;
      otp := "";
      errors := map[];
      otpSent := false;
      otpVerified := false;
      status := "";
      verifiedFor := None;
    }

    /** handleChange: the field takes the typed value and its error is
        blanked. The e-mail input is disabled once verified. */
    method HandleChange(name: string, value: string)
      requires !(name == "email" && otpVerified)
      requires VerifiedCurrent()
      modifies this
      ensures address == old(address)[name := value] && errors == old(errors)[name := ""]
      ensures otp == old(otp) && otpSent == old(otpSent) && otpVerified == old(otpVerified)
      ensures status == old(status) && verifiedFor == old(verifiedFor)
      ensures VerifiedCurrent()
    {
      address := address[name := value];
      errors := errors[name := ""];
    }

    /** The code input. */
    method EnterOtp(value: string)
      modifies this
      ensures otp == value && address == old(address) && errors == old(errors) && status == old(status)
      ensures otpSent == old(otpSent) && otpVerified == old(otpVerified) && verifiedFor == old(verifiedFor)
    {
      otp := value;
    }

    /** validate: replaces the errors and reports whether there are none. */
    method Validate() returns (ok: bool)
      modifies this
      ensures errors == Errors(address) && (ok <==> errors == map[])
      ensures address == old(address) && otp == old(otp) && status == old(status)
      ensures otpSent == old(otpSent) && otpVerified == old(otpVerified) && verifiedFor == old(verifiedFor)
    {
      var errs := CollectErrors(address);
      errors := errs;
      ok := |errs| == 0;
      if !ok {
        assert errs.Keys != {};
      }
    }

    /** sendEmailOtp: an empty or malformed e-mail only sets an error; any
        other sends the code request, whose outcome is `delivered`. */
    method SendEmailOtp(delivered: bool, failure: Option<string>) returns (request: Option<Request>)
      requires VerifiedCurrent()
      modifies this
      ensures var email := Field(address, "email");
              if !EmailOk(email) then
                request.None? && errors == old(errors)["email" := ValidEmailNeeded]
                && status == old(status) && otpSent == old(otpSent)
              else
                request == Some(SendOtp(email)) && errors == old(errors)
                && otpSent == (old(otpSent) || delivered)
                && status == if delivered then OtpSentStatus else Reason(failure, "Failed to send OTP")
      ensures address == old(address) && otp == old(otp)
      ensures otpVerified == old(otpVerified) && verifiedFor == old(verifiedFor) && VerifiedCurrent()
    {
      var email := Field(address, "email");
      if email == "" || !EmailOk(email) {
        errors := errors["email" := ValidEmailNeeded];
        return None;
      }
      status := "";
      request := Some(SendOtp(email));
      if delivered {
        otpSent := true;
        status := OtpSentStatus;
      } else {
        status := Reason(failure, "Failed to send OTP");
      }
    }

    /** verifyOtp: without a code only the status changes; otherwise the code
        is checked for the e-mail shown, and acceptance marks it verified. */
    method VerifyOtp(accepted: bool, failure: Option<string>) returns (request: Option<Request>)
      requires VerifiedCurrent()
      modifies this
      ensures otp == "" ==> request.None? && status == OtpNeeded
                            && otpVerified == old(otpVerified) && verifiedFor == old(verifiedFor)
      ensures otp != "" ==> request == Some(CheckOtp(Field(address, "email"), otp))
      ensures otp != "" && accepted ==> otpVerified && verifiedFor == Some(Field(address, "email")) && status == VerifiedStatus
      ensures otp != "" && !accepted ==> otpVerified == old(otpVerified) && verifiedFor == old(verifiedFor)
                                         && status == Reason(failure, "OTP verification failed")
      ensures address == old(address) && otp == old(otp) && errors == old(errors) && otpSent == old(otpSent)
      ensures VerifiedCurrent()
    {
      if otp == "" {
        status := OtpNeeded;
        return None;
      }
      request := Some(CheckOtp(Field(address, "email"), otp));
      if accepted {
        otpVerified := true;
        verifiedFor := Some(Field(address, "email"));
        status := VerifiedStatus;
      } else {
        status := Reason(failure, "OTP verification failed");
      }
    }

    /** handleSubmit: an invalid form stops; with no code sent yet it sends
        one and stops; unverified it stops; only then is the address posted,
        and then it carries the verified e-mail. */
    method HandleSubmit(delivered: bool, sendFailure: Option<string>, saved: bool, saveFailure: Option<string>)
      returns (request: Option<Request>)
      requires VerifiedCurrent()
      modifies this
      ensures Errors(old(address)) != map[] ==>
                request.None? && errors == Errors(old(address)) && status == old(status) && otpSent == old(otpSent)
      ensures Errors(old(address)) == map[] ==> errors == map[]
      ensures Errors(old(address)) == map[] && !old(otpSent) ==>
                && request == Some(SendOtp(Field(address, "email")))
                && otpSent == delivered
                && status == if delivered then OtpSentStatus else Reason(sendFailure, "Failed to send OTP")
      ensures old(otpSent) ==> otpSent
      ensures Errors(old(address)) == map[] && old(otpSent) && !old(otpVerified) ==>
                request.None? && status == VerifyFirst
      ensures Errors(old(address)) == map[] && old(otpSent) && old(otpVerified) ==>
                request == Some(SaveAddress(NewAddress(address)))
                && status == if saved then old(status) else Reason(saveFailure, "Failed to submit address")
      ensures request.Some? && request.value.SaveAddress? ==>
                Some(request.value.body["email"]) == verifiedFor && old(otpVerified)
      ensures address == old(address) && otp == old(otp) && otpVerified == old(otpVerified)
      ensures verifiedFor == old(verifiedFor) && VerifiedCurrent()
    {
      var ok := Validate();
      if !ok {
        return None;
      }
      if !otpSent {
        ValidIff(address);
        request := SendEmailOtp(delivered, sendFailure);
        return;
      }
      if !otpVerified {
        status := VerifyFirst;
        return None;
      }
      var newAddress := NewAddress(address);
      request := Some(SaveAddress(newAddress));
      assert "email" in RequiredFields;
      if !saved {
        status := Reason(saveFailure, "Failed to submit address");
      }
    }
  }
}
