// The four field validators of a contact (email, phone, IBAN, identity
// document). Each one accepts the empty value and otherwise requires a
// regular expression to match the whole value. The expressions are read
// with end-of-text anchoring here; `ValidateEmailAsWritten` models Python's
// `$`, which also lets one trailing newline through.

module ContactValidators {
  import opened Common
  import opened Text

  // --- Regular-expression building blocks -----------------------------------

  /** `[^@\s]`: any character but "@" and whitespace. */
  predicate EmailChar(c: char) { c != '@' && !IsSpace(c) }

  /** `[^@\s]+` */
  predicate EmailRun(t: string)
  {
    t != [] && forall k :: 0 <= k < |t| ==> EmailChar(t[k])
  }

  /** The language of `[^@\s]+@[^@\s]+\.[^@\s]+`, read off the expression. */
  ghost predicate MatchesEmailRegex(s: string)
  {
    exists a: string, b: string, c: string ::
      EmailRun(a) && EmailRun(b) && EmailRun(c) && s == a + "@" + b + "." + c
  }

  /** `[\d\s\-]` */
  predicate PhoneChar(c: char) { IsDigit(c) || IsSpace(c) || c == '-' }

  /** The language of `[+]?\d[\d\s\-]{6,20}`. */
  ghost predicate MatchesPhoneRegex(s: string)
  {
    exists sign: string, d: char, rest: string ::
      (sign == "" || sign == "+") && IsDigit(d) && 6 <= |rest| <= 20 &&
      (forall k :: 0 <= k < |rest| ==> PhoneChar(rest[k])) && s == sign + [d] + rest
  }

  predicate IsAsciiLetter(c: char) { IsUpperAscii(c) || IsLowerAscii(c) }

  /** `[A-Z0-9]` */
  predicate UpperAlnum(c: char) { IsUpperAscii(c) || IsDigit(c) }

  // --- Deterministic recognisers ----------------------------------------------

  predicate NoSpace(s: string) { forall k :: 0 <= k < |s| ==> !IsSpace(s[k]) }

  /** A "." with at least one character on each side. */
  predicate HasInnerDot(d: string) { exists j :: 0 < j < |d| - 1 && d[j] == '.' }

  /** One "@" with a non-empty part before it, a domain with an inner "." after it, and no whitespace. */
  predicate EmailShape(s: string)
  {
    NoSpace(s) &&
    match IndexOf(s, '@')
      case None => false
      case Some(i) => i > 0 && '@' !in s[i + 1..] && HasInnerDot(s[i + 1..])
  }

  /** The value without its optional leading "+". */
  function PhoneBody(s: string): string
  {
    if s != [] && s[0] == '+' then s[1..] else s
  }

  predicate PhoneDigits(t: string)
  {
    7 <= |t| <= 21 && IsDigit(t[0]) && forall k :: 1 <= k < |t| ==> PhoneChar(t[k])
  }

  predicate PhoneShape(s: string)
  {
    PhoneDigits(PhoneBody(s))
  }

  /** `[A-Z]{2}\d{2}[A-Z0-9]{1,30}` */
  predicate IbanShape(t: string)
  {
    5 <= |t| <= 34 && IsUpperAscii(t[0]) && IsUpperAscii(t[1]) && IsDigit(t[2]) && IsDigit(t[3]) &&
    forall k :: 4 <= k < |t| ==> UpperAlnum(t[k])
  }

  /** `[0-9A-Z]{8,10}` */
  predicate DocumentShape(t: string)
  {
    8 <= |t| <= 10 && forall k :: 0 <= k < |t| ==> UpperAlnum(t[k])
  }

  lemma {:induction false} IndexOfFirst(s: string, x: char, k: nat)
    requires k < |s| && s[k] == x && x !in s[..k]
    ensures IndexOf(s, x) == Some(k)
  {
    if k > 0 {
      assert s[..k] == [s[0]] + s[1..k];
      assert s[1..][..k - 1] == s[1..k];
      IndexOfFirst(s[1..], x, k - 1);
    }
  }

  lemma EmailRunOfSlice(t: string, lo: nat, hi: nat)
    requires lo < hi <= |t| && NoSpace(t) && '@' !in t[lo..hi]
    ensures EmailRun(t[lo..hi])
  {
    forall k | 0 <= k < hi - lo
      ensures EmailChar(t[lo..hi][k])
    {
      assert t[lo..hi][k] == t[lo + k];
    }
  }

  lemma NotInSlice(t: string, x: char, lo: nat, hi: nat)
    requires lo <= hi <= |t| && x !in t
    ensures x !in t[lo..hi]
  {
    forall k | 0 <= k < hi - lo ensures t[lo..hi][k] != x {
      assert t[lo..hi][k] == t[lo + k] && t[lo + k] in t;
    }
  }

  /** A domain with no space and no "@" splits at its inner dot into two runs. */
  lemma DomainRuns(dom: string, j: nat)
    requires NoSpace(dom) && '@' !in dom && 0 < j < |dom| - 1 && dom[j] == '.'
    ensures EmailRun(dom[0..j]) && EmailRun(dom[j + 1..|dom|])
    ensures dom == dom[0..j] + "." + dom[j + 1..|dom|]
  {
    NotInSlice(dom, '@', 0, j);
    NotInSlice(dom, '@', j + 1, |dom|);
    EmailRunOfSlice(dom, 0, j);
    EmailRunOfSlice(dom, j + 1, |dom|);
  }

  lemma NoSpaceOfSuffix(s: string, n: nat)
    requires NoSpace(s) && n <= |s|
    ensures NoSpace(s[n..])
  {
    forall k | 0 <= k < |s| - n ensures !IsSpace(s[n..][k]) { assert s[n..][k] == s[n + k]; }
  }

  lemma EmailShapeMatches(s: string)
    requires EmailShape(s)
    ensures MatchesEmailRegex(s)
  {
    var i := IndexOf(s, '@').value;
    var dom := s[i + 1..];
    var j :| 0 < j < |dom| - 1 && dom[j] == '.';
    assert s[0..i] == s[..i];
    EmailRunOfSlice(s, 0, i);
    NoSpaceOfSuffix(s, i + 1);
    DomainRuns(dom, j);
    var a, b, c := s[..i], dom[0..j], dom[j + 1..|dom|];
    assert s == a + "@" + dom;
    assert s == a + "@" + b + "." + c;
  }

  lemma MatchesEmailShape(s: string, a: string, b: string, c: string)
    requires EmailRun(a) && EmailRun(b) && EmailRun(c) && s == a + "@" + b + "." + c
    ensures EmailShape(s)
  {
    assert s[..|a|] == a;
    IndexOfFirst(s, '@', |a|);
    var dom := s[|a| + 1..];
    assert dom == b + "." + c;
    assert dom[|b|] == '.';
    assert forall k :: 0 <= k < |dom| ==> dom[k] != '@' by {
      forall k | 0 <= k < |dom| ensures dom[k] != '@' {
        if k < |b| { assert dom[k] == b[k]; } else if k > |b| { assert dom[k] == c[k - |b| - 1]; }
      }
    }
  }

  /** The recogniser decides exactly the language of the email expression. */
  lemma EmailShapeIsRegex(s: string)
    ensures EmailShape(s) <==> MatchesEmailRegex(s)
  {
    if EmailShape(s) { EmailShapeMatches(s); }
    if MatchesEmailRegex(s) {
      var a: string, b: string, c: string :| EmailRun(a) && EmailRun(b) && EmailRun(c) && s == a + "@" + b + "." + c;
      MatchesEmailShape(s, a, b, c);
    }
  }

  /** The recogniser decides exactly the language of the phone expression. */
  lemma PhoneShapeIsRegex(s: string)
    ensures PhoneShape(s) <==> MatchesPhoneRegex(s)
  {
    if PhoneShape(s) {
      PhoneShapeMatches(s);
    }
    if MatchesPhoneRegex(s) {
      PhoneMatchIsShape(s);
    }
  }

  lemma PhoneShapeMatches(s: string)
    requires PhoneShape(s)
    ensures MatchesPhoneRegex(s)
  {
    var sign := if s != [] && s[0] == '+' then "+" else "";
    var t := PhoneBody(s);
    assert t == s[|sign|..];
    var d, rest := t[0], t[1..];
    assert s == sign + [d] + rest;
    assert forall k :: 0 <= k < |rest| ==> rest[k] == t[k + 1];
    assert (sign == "" || sign == "+") && IsDigit(d) && 6 <= |rest| <= 20;
    assert forall k :: 0 <= k < |rest| ==> PhoneChar(rest[k]);
  }

  lemma PhoneMatchIsShape(s: string)
    requires MatchesPhoneRegex(s)
    ensures PhoneShape(s)
  {
    var sign: string, d: char, rest: string :| (sign == "" || sign == "+") && IsDigit(d) && 6 <= |rest| <= 20 &&
      (forall k :: 0 <= k < |rest| ==> PhoneChar(rest[k])) && s == sign + [d] + rest;
    var t := PhoneBody(s);
    if sign == "+" {
      assert s[0] == '+' && s[1..] == [d] + rest;
    } else {
      assert s == [d] + rest && s[0] == d;
    }
    assert t == [d] + rest;
    assert forall k :: 1 <= k < |t| ==> t[k] == rest[k - 1];
    assert 7 <= |t| <= 21 && IsDigit(t[0]);
  }

  // --- The validators -----------------------------------------------------------

  /**
   * `validate_email_basic`: the empty value, or a value the email expression
   * matches from its first to its last character.
   */
  function ValidateEmail(value: string): (r: Outcome)
    ensures r.Done? <==> value == [] || MatchesEmailRegex(value)
    ensures r.Fail? ==> r.error == Validation("Email no válido")
  {
    EmailShapeIsRegex(value);
    if value == [] || EmailShape(value) then Done else Fail(Validation("Email no válido"))
  }

  /** Python's `$` matches at the end of the text or just before a final newline. */
  predicate DollarEnd(full: string -> bool, s: string)
  {
    full(s) || (s != [] && s[|s| - 1] == '\n' && full(s[..|s| - 1]))
  }

  /** `validate_email_basic` as written: `_EMAIL_RE.match` anchored by `$`. */
  function ValidateEmailAsWritten(value: string): (r: Outcome)
    ensures r.Done? <==> (value == [] || MatchesEmailRegex(value) ||
      (value != [] && value[|value| - 1] == '\n' && MatchesEmailRegex(value[..|value| - 1])))
    ensures r.Fail? ==> r.error == Validation("Email no válido")
  {
    EmailShapeIsRegex(value);
    EmailShapeIsRegex(if value == [] then [] else value[..|value| - 1]);
    if value == [] || DollarEnd(EmailShape, value) then Done else Fail(Validation("Email no válido"))
  }

  /** "a@b.c\n" passes the validator as written but is no email address. */
  lemma EmailTrailingNewline()
    ensures ValidateEmailAsWritten("a@b.c\n").Done?
    ensures ValidateEmail("a@b.c\n").Fail?
  {
    var s := "a@b.c\n";
    assert s[..|s| - 1] == "a" + "@" + "b" + "." + "c";
    assert EmailRun("a") && EmailRun("b") && EmailRun("c");
    assert !NoSpace(s) by { assert IsSpace(s[5]); }
    EmailShapeIsRegex(s);
  }

  /** `validate_phone_basic`. */
  function ValidatePhone(value: string): (r: Outcome)
    ensures r.Done? <==> value == [] || MatchesPhoneRegex(value)
    ensures r.Fail? ==> r.error == Validation("Teléfono no válido")
  {
    PhoneShapeIsRegex(value);
    if value == [] || PhoneShape(value) then Done else Fail(Validation("Teléfono no válido"))
  }

  /**
   * `validate_iban_basic`: spaces are dropped and letters compared without
   * case, so the non-space characters must be two letters, two digits and
   * one to thirty letters or digits.
   */
  function ValidateIban(value: string): (r: Outcome)
    ensures var u := RemoveChar(value, ' ');
      r.Done? <==> (value == [] ||
        (5 <= |u| <= 34 && IsAsciiLetter(u[0]) && IsAsciiLetter(u[1]) && IsDigit(u[2]) && IsDigit(u[3]) &&
         forall k :: 4 <= k < |u| ==> IsAsciiLetter(u[k]) || IsDigit(u[k])))
    ensures r.Fail? ==> r.error == Validation("IBAN no válido")
  {
    if value == [] || IbanShape(Upper(RemoveChar(value, ' '))) then Done else Fail(Validation("IBAN no válido"))
  }

  /** `validate_id_document_basic`: 8 to 10 letters or digits, letters in either case. */
  function ValidateDocumentId(value: string): (r: Outcome)
    ensures r.Done? <==> (value == [] ||
      (8 <= |value| <= 10 && forall k :: 0 <= k < |value| ==> IsAsciiLetter(value[k]) || IsDigit(value[k])))
    ensures r.Fail? ==> r.error == Validation("Documento identificativo no válido")
  {
    if value == [] || DocumentShape(Upper(value)) then Done else Fail(Validation("Documento identificativo no válido"))
  }

  lemma {:induction false} RemoveCharConcat(a: string, b: string, c: char)
    ensures RemoveChar(a + b, c) == RemoveChar(a, c) + RemoveChar(b, c)
  {
    if a != [] {
      assert (a + b)[1..] == a[1..] + b;
      RemoveCharConcat(a[1..], b, c);
    } else {
      assert a + b == b;
    }
  }

  lemma RemoveLeading(b: string, c: char)
    ensures RemoveChar([c] + b, c) == RemoveChar(b, c)
  {
    assert ([c] + b)[0] == c && ([c] + b)[1..] == b;
  }

  lemma RemoveInnerSpace(a: string, b: string)
    ensures RemoveChar(a + " " + b, ' ') == RemoveChar(a + b, ' ')
  {
    assert a + " " + b == a + ([' '] + b);
    RemoveCharConcat(a, [' '] + b, ' ');
    RemoveLeading(b, ' ');
    RemoveCharConcat(a, b, ' ');
  }

  /** Spaces anywhere inside a non-blank IBAN do not change the verdict. */
  lemma IbanIgnoresSpaces(a: string, b: string)
    requires a + b != []
    ensures ValidateIban(a + " " + b) == ValidateIban(a + b)
  {
    RemoveInnerSpace(a, b);
    assert a + " " + b != [];
  }

  /** A value of spaces only is not empty, so it is rejected. */
  lemma BlankIbanRejected()
    ensures ValidateIban(" ").Fail?
  {
    assert RemoveChar(" ", ' ') == [];
  }

  /** Lower-casing a document id does not change the verdict. */
  lemma DocumentIdIgnoresCase(value: string)
    ensures ValidateDocumentId(Lower(value)) == ValidateDocumentId(value)
  {
  }
}
