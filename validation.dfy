/**
 * Input predicates for enterprise slugs, tenant domains and e-mail addresses. Each
 * source predicate is one anchored regular expression (plus, for slugs, a length
 * check); here each is a recursive predicate over the characters, and a lemma
 * restates it as the shape the regular expression describes.
 */
module Validation {
  import opened Common

  predicate IsLower(c: char) { 'a' <= c <= 'z' }
  predicate IsUpper(c: char) { 'A' <= c <= 'Z' }
  predicate IsDigit(c: char) { '0' <= c <= '9' }
  predicate IsLetter(c: char) { IsLower(c) || IsUpper(c) }
  predicate IsAlnum(c: char) { IsLetter(c) || IsDigit(c) }

  /** `[a-z0-9-]` */
  predicate IsSlugChar(c: char) { IsLower(c) || IsDigit(c) || c == '-' }

  /** `[a-zA-Z0-9-]` */
  predicate IsLabelChar(c: char) { IsAlnum(c) || c == '-' }

  /** JavaScript's `\s`: the ASCII blanks, the Unicode space separators, the line and paragraph separators and the byte-order mark. */
  predicate IsJsWhitespace(c: char)
  {
    c == '\t' || c == '\n' || c == '\U{000B}' || c == '\U{000C}' || c == '\r' || c == ' ' ||
    c == '\U{00A0}' || c == '\U{1680}' || ('\U{2000}' <= c <= '\U{200A}') ||
    c == '\U{2028}' || c == '\U{2029}' || c == '\U{202F}' || c == '\U{205F}' ||
    c == '\U{3000}' || c == '\U{FEFF}'
  }

  /** `[^\s@]` */
  predicate IsAddressChar(c: char) { !IsJsWhitespace(c) && c != '@' }

  /** Every character of `s` belongs to the class `p`: a character class under `*`. */
  predicate Every(s: string, p: char -> bool)
  {
    s == [] || (p(s[0]) && Every(s[1..], p))
  }

  lemma {:induction false} EveryIff(s: string, p: char -> bool)
    ensures Every(s, p) <==> forall i :: 0 <= i < |s| ==> p(s[i])
  {
    if s != [] {
      EveryIff(s[1..], p);
      assert forall i :: 1 <= i < |s| ==> s[i] == s[1..][i - 1];
    }
  }

  /** The index of the first occurrence of `c` in `s`, if any. */
  function IndexOf(s: string, c: char): (r: Option<nat>)
    ensures r.None? <==> forall j :: 0 <= j < |s| ==> s[j] != c
    ensures r.Some? ==> r.value < |s| && s[r.value] == c && forall j :: 0 <= j < r.value ==> s[j] != c
  {
    if s == [] then None
    else if s[0] == c then Some(0)
    else
      match IndexOf(s[1..], c)
      case None => None
      case Some(k) => Some(k + 1)
  }

  // ---------------------------------------------------------------- enterprise slug

  /** `/^[a-z0-9-]+$/.test(slug) && slug.length >= 2 && slug.length <= 39` */
  predicate ValidateEnterpriseSlug(slug: string)
  {
    |slug| > 0 && Every(slug, IsSlugChar) && |slug| >= 2 && |slug| <= 39
  }

  lemma SlugAcceptedIff(slug: string)
    ensures ValidateEnterpriseSlug(slug) <==>
            (forall i :: 0 <= i < |slug| ==> IsSlugChar(slug[i])) && 2 <= |slug| <= 39
  {
    EveryIff(slug, IsSlugChar);
  }

  /** The empty slug and every slug holding an upper-case letter are refused. */
  lemma SlugRejectsEmptyAndUpper(slug: string, i: nat)
    requires i < |slug| && IsUpper(slug[i])
    ensures !ValidateEnterpriseSlug("")
    ensures !ValidateEnterpriseSlug(slug)
  {
    SlugAcceptedIff(slug);
  }

  // ---------------------------------------------------------------- tenant domain

  /** `[a-zA-Z0-9][a-zA-Z0-9-]{1,61}[a-zA-Z0-9]` */
  predicate FirstLabel(l: string)
  {
    3 <= |l| <= 63 && IsAlnum(l[0]) && IsAlnum(l[|l| - 1]) && Every(l[1..|l| - 1], IsLabelChar)
  }

  /** `[a-zA-Z]{2,}` */
  predicate TopLabel(t: string)
  {
    |t| >= 2 && Every(t, IsLetter)
  }

  /**
   * `/^[a-zA-Z0-9][a-zA-Z0-9-]{1,61}[a-zA-Z0-9]\.[a-zA-Z]{2,}$/.test(domain)`. No class
   * of the first label admits a dot, so the literal dot can only be the first one.
   */
  predicate ValidateTenantDomain(domain: string)
  {
    match IndexOf(domain, '.')
    case None => false
    case Some(i) => FirstLabel(domain[..i]) && TopLabel(domain[i + 1..])
  }

  /** The shape the regular expression describes: some dot splits the domain into the two labels. */
  ghost predicate TenantDomainShape(domain: string)
  {
    exists i :: 0 <= i < |domain| && domain[i] == '.' && FirstLabel(domain[..i]) && TopLabel(domain[i + 1..])
  }

  lemma FirstLabelHasNoDot(l: string)
    requires FirstLabel(l)
    ensures forall j :: 0 <= j < |l| ==> l[j] != '.'
  {
    var mid := l[1..|l| - 1];
    EveryIff(mid, IsLabelChar);
    forall j | 1 <= j < |l| - 1 ensures l[j] != '.' {
      assert l[j] == mid[j - 1];
    }
  }

  lemma TenantDomainIff(domain: string)
    ensures ValidateTenantDomain(domain) <==> TenantDomainShape(domain)
  {
    if ValidateTenantDomain(domain) {
      AcceptedHasShape(domain);
    }
    if TenantDomainShape(domain) {
      var i :| 0 <= i < |domain| && domain[i] == '.' && FirstLabel(domain[..i]) && TopLabel(domain[i + 1..]);
      ShapeSplitIsFirstDot(domain, i);
    }
  }

  lemma AcceptedHasShape(domain: string)
    requires ValidateTenantDomain(domain)
    ensures TenantDomainShape(domain)
  {
    var i := IndexOf(domain, '.').value;
    assert domain[i] == '.' && FirstLabel(domain[..i]) && TopLabel(domain[i + 1..]);
  }

  lemma ShapeSplitIsFirstDot(domain: string, i: nat)
    requires i < |domain| && domain[i] == '.' && FirstLabel(domain[..i])
    ensures IndexOf(domain, '.') == Some(i)
  {
    var l := domain[..i];
    FirstLabelHasNoDot(l);
    forall j | 0 <= j < i ensures domain[j] != '.' {
      assert domain[j] == l[j];
    }
  }

  /** An accepted domain holds exactly one dot. */
  lemma TenantDomainOneDot(domain: string, i: nat, j: nat)
    requires ValidateTenantDomain(domain)
    requires i < |domain| && j < |domain| && domain[i] == '.' && domain[j] == '.'
    ensures i == j
  {
    var k := IndexOf(domain, '.').value;
    var top := domain[k + 1..];
    EveryIff(top, IsLetter);
    forall m | k < m < |domain| ensures domain[m] != '.' {
      assert domain[m] == top[m - k - 1];
    }
  }

  /** A full `<tenant>.onmicrosoft.com` name has two dots and is refused. */
  lemma OnMicrosoftDomainRejected()
    ensures !ValidateTenantDomain("company.onmicrosoft.com")
  {
    var d := "company.onmicrosoft.com";
    assert d[7] == '.' && d[19] == '.';
    TwoDotsRejected(d, 7, 19);
  }

  lemma TwoDotsRejected(domain: string, i: nat, j: nat)
    requires i < j < |domain| && domain[i] == '.' && domain[j] == '.'
    ensures !ValidateTenantDomain(domain)
  {
    if ValidateTenantDomain(domain) {
      TenantDomainOneDot(domain, i, j);
    }
  }

  // ---------------------------------------------------------------- e-mail

  /**
   * `/^[^\s@]+@[^\s@]+\.[^\s@]+$/.test(email)`: the part before the only `@` is a
   * non-empty run of address characters, and so is the part after it, which must
   * hold a dot with an address character on either side.
   */
  predicate ValidateEmail(email: string)
  {
    match IndexOf(email, '@')
    case None => false
    case Some(i) => i > 0 && Every(email[..i], IsAddressChar) && EmailDomain(email[i + 1..])
  }

  predicate EmailDomain(d: string)
  {
    Every(d, IsAddressChar) && |d| >= 3 && IndexOf(d[1..|d| - 1], '.').Some?
  }

  /** The `@` at index `i` is the only one, follows a non-empty local part, and a dot sits strictly inside the domain part after it. */
  ghost predicate SoleAtWithDottedDomain(email: string, i: int)
  {
    0 < i < |email| && email[i] == '@' &&
    (forall j :: 0 <= j < |email| && email[j] == '@' ==> j == i) &&
    exists k :: i + 1 < k < |email| - 1 && email[k] == '.'
  }

  ghost predicate NoJsWhitespace(s: string)
  {
    forall j :: 0 <= j < |s| ==> !IsJsWhitespace(s[j])
  }

  /**
   * Accepted iff the address has no whitespace, exactly one `@` with a non-empty local
   * part before it, and a dot after the `@` that is neither the first nor the last
   * character of the domain part.
   */
  lemma EmailAcceptedIff(email: string)
    ensures ValidateEmail(email) <==> NoJsWhitespace(email) && exists i :: SoleAtWithDottedDomain(email, i)
  {
    if ValidateEmail(email) {
      var i := EmailAcceptedShape(email);
    }
    if NoJsWhitespace(email) && exists i :: SoleAtWithDottedDomain(email, i) {
      var i :| SoleAtWithDottedDomain(email, i);
      EmailShapeAccepted(email, i);
    }
  }

  lemma EmailAcceptedShape(email: string) returns (i: nat)
    requires ValidateEmail(email)
    ensures NoJsWhitespace(email) && SoleAtWithDottedDomain(email, i)
  {
    i := IndexOf(email, '@').value;
    var local, d := email[..i], email[i + 1..];
    EveryIff(local, IsAddressChar);
    EveryIff(d, IsAddressChar);
    forall j | 0 <= j < |email| ensures !IsJsWhitespace(email[j]) && (email[j] == '@' ==> j == i) {
      if j < i {
        assert email[j] == local[j];
      } else if j > i {
        assert email[j] == d[j - i - 1];
      }
    }
    var inner := d[1..|d| - 1];
    var m := IndexOf(inner, '.').value;
    assert email[i + 2 + m] == inner[m];
  }

  lemma EmailShapeAccepted(email: string, i: nat)
    requires NoJsWhitespace(email) && SoleAtWithDottedDomain(email, i)
    ensures ValidateEmail(email)
  {
    assert IndexOf(email, '@') == Some(i);
    var local, d := email[..i], email[i + 1..];
    forall j | 0 <= j < |local| ensures IsAddressChar(local[j]) {
      assert local[j] == email[j];
    }
    forall j | 0 <= j < |d| ensures IsAddressChar(d[j]) {
      assert d[j] == email[j + i + 1];
    }
    EveryIff(local, IsAddressChar);
    EveryIff(d, IsAddressChar);
    var k :| i + 1 < k < |email| - 1 && email[k] == '.';
    var inner := d[1..|d| - 1];
    assert inner[k - i - 2] == '.';
  }
}
