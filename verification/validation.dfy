/** `validateBooking`: four independent field rules that map a booking to its error
    messages. The two regular expressions are stated as predicates in the regex's own
    shape, each with a scanning method proved to decide it. */
module Validation {
  import opened Text
  import opened Bookings

  const NameRequired: string := "Name is required"
  const PhoneInvalid: string := "Enter a valid phone"
  const EmailInvalid: string := "Enter a valid email"
  const DateRequired: string := "Choose a preferred date"

  /** The error object: a message per field that failed its rule. */
  type Errors = map<Field, string>

  /** The only fields that have a rule. */
  const Checked: set<Field> := {Name, Phone, Email, Date}

  // ---------------------------------------------------------------- phone

  /** `[0-9]{7,15}` */
  predicate DigitRun(d: string)
  {
    7 <= |d| <= 15 && forall k :: 0 <= k < |d| ==> IsDigit(d[k])
  }

  /** `/^\+?[0-9]{7,15}$/`: an optional '+' and then 7 to 15 digits, nothing else. */
  predicate PhoneRegex(t: string)
  {
    DigitRun(t) || (|t| > 0 && t[0] == '+' && DigitRun(t[1..]))
  }

  /** The phone rule: the pattern is matched after all white space is deleted. */
  predicate PhoneAccepted(raw: string)
  {
    PhoneRegex(StripWhitespace(raw))
  }

  /** Every character of `t` from position `from` on is a digit. */
  predicate DigitsFrom(t: string, from: nat)
  {
    forall m :: from <= m < |t| ==> IsDigit(t[m])
  }

  lemma DigitsFromSnoc(t: string, from: nat, c: char)
    requires from <= |t|
    ensures DigitsFrom(t + [c], from) <==> DigitsFrom(t, from) && IsDigit(c)
  {
    assert (t + [c])[|t|] == c;
    assert forall m :: 0 <= m < |t| ==> (t + [c])[m] == t[m];
  }

  /** The phone pattern by counting: after an optional leading '+', the rest is all
      digits and there are 7 to 15 of them. */
  lemma PhoneRegexByCount(t: string)
    ensures PhoneRegex(t) <==>
      if |t| > 0 && t[0] == '+' then 8 <= |t| <= 16 && DigitsFrom(t, 1)
      else 7 <= |t| <= 15 && DigitsFrom(t, 0)
  {
    if |t| > 0 && t[0] == '+' {
      assert !IsDigit(t[0]);
      assert DigitsFrom(t, 1) <==> forall m :: 0 <= m < |t[1..]| ==> IsDigit(t[1..][m]) by {
        assert forall m :: 0 <= m < |t[1..]| ==> t[1..][m] == t[m + 1];
      }
    }
  }

  /** Deletes the white space and matches the pattern in one pass over `raw`: counts
      the characters kept, remembers whether the first of them was '+', and whether
      any later one was not a digit. */
  method ScanPhone(raw: string) returns (ok: bool)
    ensures ok == PhoneAccepted(raw)
  {
    var n := 0;
    var plus := false;
    var bad := false;
    var k := 0;
    ghost var kept: string := [];
    while k < |raw|
      invariant 0 <= k <= |raw|
      invariant kept == StripWhitespace(raw[..k])
      invariant n == |kept|
      invariant plus == (n > 0 && kept[0] == '+')
      invariant bad == !DigitsFrom(kept, if plus then 1 else 0)
    {
      var c := raw[k];
      assert raw[..k + 1] == raw[..k] + [c];
      StripSnoc(raw[..k], c);
      if !IsWhitespace(c) {
        if n == 0 {
          plus := c == '+';
          bad := !plus && !IsDigit(c);
        } else {
          DigitsFromSnoc(kept, if plus then 1 else 0, c);
          assert (kept + [c])[0] == kept[0];
          bad := bad || !IsDigit(c);
        }
        kept := kept + [c];
        n := n + 1;
      }
      k := k + 1;
    }
    assert raw[..k] == raw;
    var digits := if plus then n - 1 else n;
    ok := !bad && 7 <= digits <= 15;
    PhoneRegexByCount(kept);
  }

  /** Deleting a white-space character anywhere never changes the phone verdict. */
  lemma {:induction false} PhoneIgnoresWhitespace(a: string, c: char, b: string)
    requires IsWhitespace(c)
    ensures PhoneAccepted(a + [c] + b) == PhoneAccepted(a + b)
  {
    StripAppend(a + [c], b);
    StripAppend(a, [c]);
    StripAppend(a, b);
    assert [c][1..] == [];
    assert StripWhitespace(a) + [] == StripWhitespace(a);
  }

  // ---------------------------------------------------------------- email

  /** `[^@\s]+` */
  predicate Plain(t: string)
  {
    |t| > 0 && forall k :: 0 <= k < |t| ==> t[k] != '@' && !IsWhitespace(t[k])
  }

  /** `/^[^@\s]+@[^@\s]+\.[^@\s]+$/`: the string splits as A '@' B '.' C with A, B
      and C non-empty runs of characters that are neither '@' nor white space. */
  predicate EmailRegex(s: string)
  {
    exists i, j :: 0 <= i < j < |s| && s[i] == '@' && s[j] == '.'
      && Plain(s[..i]) && Plain(s[i + 1..j]) && Plain(s[j + 1..])
  }

  /** `i` is the only position of '@' in `s`. */
  predicate SoleAt(s: string, i: int)
  {
    forall k :: 0 <= k < |s| && s[k] == '@' ==> k == i
  }

  /** Some '.' lies after the '@' at `i` with at least one character on either side. */
  predicate DotAfter(s: string, i: int)
  {
    exists j :: 0 <= i + 1 < j < |s| - 1 && s[j] == '.'
  }

  /** The same language by positions: no white space, exactly one '@', not in front,
      and a '.' at least two places after the '@' and before the last character. */
  predicate EmailShape(s: string)
  {
    NoWhitespace(s) && exists i :: 0 < i < |s| && s[i] == '@' && SoleAt(s, i) && DotAfter(s, i)
  }

  /** A slice is `[^@\s]+` exactly when it is non-empty and each of its characters is
      neither '@' nor white space. */
  lemma PlainSlice(s: string, lo: int, hi: int)
    requires 0 <= lo <= hi <= |s|
    ensures Plain(s[lo..hi]) <==> lo < hi && forall k :: lo <= k < hi ==> s[k] != '@' && !IsWhitespace(s[k])
  {
    if lo < hi && forall k :: lo <= k < hi ==> s[k] != '@' && !IsWhitespace(s[k]) {
      forall m | 0 <= m < hi - lo ensures s[lo..hi][m] != '@' && !IsWhitespace(s[lo..hi][m]) {
        assert s[lo..hi][m] == s[lo + m];
      }
    }
    if Plain(s[lo..hi]) {
      forall k | lo <= k < hi ensures s[k] != '@' && !IsWhitespace(s[k]) {
        assert s[k] == s[lo..hi][k - lo];
      }
    }
  }

  lemma {:induction false} EmailRegexShape(s: string)
    requires EmailRegex(s)
    ensures EmailShape(s)
  {
    var i, j :| 0 <= i < j < |s| && s[i] == '@' && s[j] == '.'
      && Plain(s[..i]) && Plain(s[i + 1..j]) && Plain(s[j + 1..]);
    PlainSlice(s, 0, i);
    PlainSlice(s, i + 1, j);
    PlainSlice(s, j + 1, |s|);
    assert s[0..i] == s[..i] && s[j + 1..|s|] == s[j + 1..];
    forall k | 0 <= k < |s| ensures !IsWhitespace(s[k]) && (s[k] == '@' ==> k == i) {
      if k < i {
        assert 0 <= k < i;
      } else if i < k < j {
        assert i + 1 <= k < j;
      } else if j < k {
        assert j + 1 <= k < |s|;
      }
    }
    assert SoleAt(s, i) && DotAfter(s, i);
  }

  lemma {:induction false} EmailShapeRegex(s: string)
    requires EmailShape(s)
    ensures EmailRegex(s)
  {
    var i :| 0 < i < |s| && s[i] == '@' && SoleAt(s, i) && DotAfter(s, i);
    var j :| 0 <= i + 1 < j < |s| - 1 && s[j] == '.';
    PlainSlice(s, 0, i);
    PlainSlice(s, i + 1, j);
    PlainSlice(s, j + 1, |s|);
    assert s[0..i] == s[..i] && s[j + 1..|s|] == s[j + 1..];
  }

  lemma EmailRegexIff(s: string)
    ensures EmailRegex(s) <==> EmailShape(s)
  {
    if EmailRegex(s) {
      EmailRegexShape(s);
    }
    if EmailShape(s) {
      EmailShapeRegex(s);
    }
  }

  /** Decides the email pattern in one pass: notes white space, the first '@', whether
      a second '@' follows it, and whether a '.' sits where the pattern needs one. */
  method ScanEmail(s: string) returns (ok: bool)
    ensures ok == EmailRegex(s)
  {
    var space := false;
    var at := -1;
    var twoAts := false;
    var dot := false;
    var k := 0;
    while k < |s|
      invariant 0 <= k <= |s|
      invariant space == exists m :: 0 <= m < k && IsWhitespace(s[m])
      invariant -1 <= at < k
      invariant at == -1 ==> forall m :: 0 <= m < k ==> s[m] != '@'
      invariant at >= 0 ==> s[at] == '@' && forall m :: 0 <= m < at ==> s[m] != '@'
      invariant twoAts == (at >= 0 && exists m :: at < m < k && s[m] == '@')
      invariant dot == (at >= 0 && exists m :: at + 1 < m < k && m < |s| - 1 && s[m] == '.')
    {
      var c := s[k];
      if IsWhitespace(c) {
        space := true;
      }
      if c == '@' {
        if at < 0 {
          at := k;
        } else {
          twoAts := true;
        }
      } else if c == '.' && at >= 0 && at + 1 < k && k < |s| - 1 {
        dot := true;
      }
      k := k + 1;
    }
    ok := !space && at > 0 && !twoAts && dot;
    if ok {
      assert SoleAt(s, at) && DotAfter(s, at);
    }
    if EmailShape(s) {
      var i :| 0 < i < |s| && s[i] == '@' && SoleAt(s, i) && DotAfter(s, i);
      assert at == i;
    }
    EmailRegexIff(s);
  }

  // ---------------------------------------------------------------- validator

  /** The outcome of the four field rules on one booking. */
  datatype Verdicts = Verdicts(nameBlank: bool, phoneOk: bool, emailOk: bool, dateMissing: bool)

  /** The four rules: the name is blank (`!b.name.trim()`, which by `Trim` means all
      white space), the phone pattern after white-space deletion, the email pattern,
      and `!b.date`. */
  function Judge(b: Booking): Verdicts
  {
    Verdicts(AllWhitespace(b.name), PhoneAccepted(b.phone), EmailRegex(b.email), b.date == "")
  }

  /** The error object from the four verdicts: one entry, with its rule's message,
      for each failed rule and none for the others. */
  function ErrorsOf(v: Verdicts): (e: Errors)
    ensures e.Keys <= Checked
    ensures (Name in e <==> v.nameBlank) && (Phone in e <==> !v.phoneOk)
    ensures (Email in e <==> !v.emailOk) && (Date in e <==> v.dateMissing)
    ensures Name in e ==> e[Name] == NameRequired
    ensures Phone in e ==> e[Phone] == PhoneInvalid
    ensures Email in e ==> e[Email] == EmailInvalid
    ensures Date in e ==> e[Date] == DateRequired
  {
    var e1: Errors := if v.nameBlank then map[Name := NameRequired] else map[];
    var e2 := if !v.phoneOk then e1[Phone := PhoneInvalid] else e1;
    var e3 := if !v.emailOk then e2[Email := EmailInvalid] else e2;
    if v.dateMissing then e3[Date := DateRequired] else e3
  }

  /** `validateBooking(b)`: a fresh error object from the four field rules; it only
      ever names checked fields. What each rule means is `ValidateBookingRules`. */
  function ValidateBooking(b: Booking): (e: Errors)
    ensures e.Keys <= Checked
  {
    ErrorsOf(Judge(b))
  }

  /** A field has an entry exactly when its rule fails, and the entry is that rule's
      message: the name is all white space, the phone is rejected, the email lacks
      the required shape, the date is empty. */
  lemma ValidateBookingRules(b: Booking)
    ensures var e := ValidateBooking(b);
      && (Name in e <==> AllWhitespace(b.name))
      && (Phone in e <==> !PhoneAccepted(b.phone))
      && (Email in e <==> !EmailShape(b.email))
      && (Date in e <==> b.date == "")
      && (Name in e ==> e[Name] == NameRequired)
      && (Phone in e ==> e[Phone] == PhoneInvalid)
      && (Email in e ==> e[Email] == EmailInvalid)
      && (Date in e ==> e[Date] == DateRequired)
  {
    EmailRegexIff(b.email);
  }

  /** The service, the time, the address and the message never cause or suppress an
      error: the verdict depends on the four checked fields only. */
  lemma {:induction false} ValidateIgnoresUncheckedFields(b1: Booking, b2: Booking)
    requires forall f :: f in Checked ==> Get(b1, f) == Get(b2, f)
    ensures ValidateBooking(b1) == ValidateBooking(b2)
  {
    assert Get(b1, Name) == Get(b2, Name) && Get(b1, Phone) == Get(b2, Phone);
    assert Get(b1, Email) == Get(b2, Email) && Get(b1, Date) == Get(b2, Date);
  }

  /** Three groups of characters separated by single spaces lose only the spaces. */
  lemma {:induction false} StripSpacedGroups(a: string, b: string, c: string)
    requires NoWhitespace(a) && NoWhitespace(b) && NoWhitespace(c)
    ensures StripWhitespace(a + " " + b + " " + c) == a + b + c
  {
    assert StripWhitespace(" ") == [];
    StripAppend(a, " ");
    StripAppend(a + " ", b);
    StripAppend(a + " " + b, " ");
    StripAppend(a + " " + b + " ", c);
  }

  /** The form's placeholder phone loses its two spaces. */
  lemma ExamplePhoneStripped()
    ensures StripWhitespace("+91 98765 43210") == "+919876543210"
  {
    assert NoWhitespace("+91") && NoWhitespace("98765") && NoWhitespace("43210") by {}
    assert "+91" + " " + "98765" + " " + "43210" == "+91 98765 43210" by {}
    assert "+91" + "98765" + "43210" == "+919876543210" by {}
    StripSpacedGroups("+91", "98765", "43210");
  }

  /** ... and what is left is '+' and twelve digits, so the phone is accepted. */
  lemma ExamplePhoneAccepted()
    ensures PhoneAccepted("+91 98765 43210")
  {
    assert PhoneRegex("+919876543210") by {
      assert "+919876543210"[1..] == "919876543210";
    }
    ExamplePhoneStripped();
  }

  /** An example email, "a@b.co": it has the one '@' and a '.' after it. */
  lemma ExampleEmailAccepted()
    ensures EmailShape("a@b.co")
  {
    var email := "a@b.co";
    assert SoleAt(email, 1);
    assert DotAfter(email, 1) by { assert email[3] == '.'; }
  }

  /** A complete, well-formed booking draws no error at all. */
  lemma ExampleValidBooking()
    ensures ValidateBooking(Booking("Asha", "+91 98765 43210", "a@b.co", "digital", "2025-05-01", "", "", "")) == map[]
  {
    assert !AllWhitespace("Asha") by {
      assert !IsWhitespace("Asha"[0]);
    }
    assert PhoneAccepted("+91 98765 43210") by {
      ExamplePhoneAccepted();
    }
    assert EmailRegex("a@b.co") by {
      ExampleEmailAccepted();
      EmailShapeRegex("a@b.co");
    }
    assert ErrorsOf(Verdicts(false, true, true, false)) == map[];
  }

  /** An empty name, a three-digit phone, an email without '@' and no date: all four
      rules fail, and nothing else is reported. */
  lemma ExampleInvalidBooking()
    ensures ValidateBooking(Booking("", "123", "bad", "digital", "", "", "", "")).Keys == Checked
  {
    assert !PhoneAccepted("123") by {
      assert |StripWhitespace("123")| <= 3;
    }
    assert !EmailRegex("bad") by {
      var email := "bad";
      assert !EmailShape(email) by {
        assert forall i :: 0 < i < |email| ==> email[i] != '@';
      }
      EmailRegexIff(email);
    }
    assert ErrorsOf(Verdicts(true, false, false, true)).Keys == Checked;
  }

  /** The four rules run with the two scanning methods in place of the regular
      expressions: the same verdicts as `Judge`. */
  method JudgeBooking(b: Booking) returns (v: Verdicts)
    ensures v == Judge(b)
  {
    var nameBlank := Trim(b.name) == [];
    var phoneOk := ScanPhone(b.phone);
    var emailOk := ScanEmail(b.email);
    v := Verdicts(nameBlank, phoneOk, emailOk, b.date == "");
  }

  /** The validator as the submit handler runs it: exactly `ValidateBooking`. */
  method CheckBooking(b: Booking) returns (e: Errors)
    ensures e == ValidateBooking(b)
  {
    var v := JudgeBooking(b);
    e := ErrorsOf(v);
  }
}
