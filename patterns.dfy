/** The four regular expressions the request schemas use, each written out
    as the character-level predicate an anchored match of it amounts to. */
module Patterns {

  datatype Pattern =
    | EmailPattern      // ^[a-zA-Z0-9._-]+@[a-zA-Z0-9.-]+\.[a-zA-Z]{2,6}$
    | ObjectIdPattern   // ^[0-9a-fA-F]{24}$
    | DigitsPattern     // ^[0-9]+$
    | IsoDatePattern    // ^\d{4}-\d{2}-\d{2}(T\d{2}:\d{2}:\d{2}(\.\d{1,3})?(Z|[+-]\d{2}:\d{2}))?$

  predicate IsDigit(c: char) { '0' <= c <= '9' }
  predicate IsLetter(c: char) { 'a' <= c <= 'z' || 'A' <= c <= 'Z' }
  predicate IsHexDigit(c: char) { IsDigit(c) || 'a' <= c <= 'f' || 'A' <= c <= 'F' }
  predicate IsLocalChar(c: char) { IsLetter(c) || IsDigit(c) || c == '.' || c == '_' || c == '-' }
  predicate IsDomainChar(c: char) { IsLetter(c) || IsDigit(c) || c == '.' || c == '-' }

  predicate AllDigits(s: string) { forall i :: 0 <= i < |s| ==> IsDigit(s[i]) }
  predicate AllLetters(s: string) { forall i :: 0 <= i < |s| ==> IsLetter(s[i]) }
  predicate AllHex(s: string) { forall i :: 0 <= i < |s| ==> IsHexDigit(s[i]) }
  predicate AllLocal(s: string) { forall i :: 0 <= i < |s| ==> IsLocalChar(s[i]) }
  predicate AllDomain(s: string) { forall i :: 0 <= i < |s| ==> IsDomainChar(s[i]) }

  /** `[a-zA-Z0-9.-]+\.[a-zA-Z]{2,6}`: some dot splits `r` into a non-empty
      domain and a top-level domain of 2 to 6 letters. */
  predicate DomainWithTld(r: string) {
    exists k | 0 <= k < |r| ::
      r[k] == '.' && k >= 1 && AllDomain(r[..k]) && 2 <= |r| - k - 1 <= 6 && AllLetters(r[k + 1..])
  }

  /** The email rule: a non-empty local part, '@', then `DomainWithTld`. */
  predicate IsEmail(s: string) {
    exists a | 0 <= a < |s| :: s[a] == '@' && a >= 1 && AllLocal(s[..a]) && DomainWithTld(s[a + 1..])
  }

  predicate IsObjectId(s: string) { |s| == 24 && AllHex(s) }

  predicate IsDigits(s: string) { |s| >= 1 && AllDigits(s) }

  predicate TwoDigits(s: string, i: int) { 0 <= i && i + 2 <= |s| && IsDigit(s[i]) && IsDigit(s[i + 1]) }

  /** `\d{4}-\d{2}-\d{2}` */
  predicate IsDateOnly(d: string) {
    |d| == 10 && TwoDigits(d, 0) && TwoDigits(d, 2) && d[4] == '-' && TwoDigits(d, 5) && d[7] == '-' && TwoDigits(d, 8)
  }

  /** `\d{2}:\d{2}:\d{2}` */
  predicate IsClock(t: string) {
    |t| == 8 && TwoDigits(t, 0) && t[2] == ':' && TwoDigits(t, 3) && t[5] == ':' && TwoDigits(t, 6)
  }

  /** `Z|[+-]\d{2}:\d{2}` */
  predicate IsZone(z: string) {
    z == "Z" || (|z| == 6 && (z[0] == '+' || z[0] == '-') && TwoDigits(z, 1) && z[3] == ':' && TwoDigits(z, 4))
  }

  /** `(\.\d{1,3})?(Z|[+-]\d{2}:\d{2})` */
  predicate IsFractionAndZone(r: string) {
    IsZone(r) || FractionThenZone(r, 1) || FractionThenZone(r, 2) || FractionThenZone(r, 3)
  }

  /** A dot, `n` digits, then a zone. */
  predicate FractionThenZone(r: string, n: nat) {
    n + 1 <= |r| && r[0] == '.' && AllDigits(r[1..n + 1]) && IsZone(r[n + 1..])
  }

  predicate IsIsoDate(s: string) {
    |s| >= 10 && IsDateOnly(s[..10]) &&
    (|s| == 10 || (|s| >= 19 && s[10] == 'T' && IsClock(s[11..19]) && IsFractionAndZone(s[19..])))
  }

  /** `new RegExp(pattern).test(s)`. */
  predicate Test(p: Pattern, s: string) {
    match p
    case EmailPattern => IsEmail(s)
    case ObjectIdPattern => IsObjectId(s)
    case DigitsPattern => IsDigits(s)
    case IsoDatePattern => IsIsoDate(s)
  }

  /** Neither part of an address may hold '@', so an address has exactly one. */
  lemma EmailHasOneAt(s: string, a: int, b: int)
    requires IsEmail(s)
    requires 0 <= a < |s| && 0 <= b < |s| && s[a] == '@' && s[b] == '@'
    ensures a == b
  {
    var x :| 0 <= x < |s| && s[x] == '@' && x >= 1 && AllLocal(s[..x]) && DomainWithTld(s[x + 1..]);
    OnlyAtIsSplit(s, x, a);
    OnlyAtIsSplit(s, x, b);
  }

  lemma OnlyAtIsSplit(s: string, x: int, i: int)
    requires 0 <= x < |s| && AllLocal(s[..x]) && DomainWithTld(s[x + 1..])
    requires 0 <= i < |s| && s[i] == '@'
    ensures i == x
  {
    var r := s[x + 1..];
    var k :| 0 <= k < |r| && r[k] == '.' && k >= 1 && AllDomain(r[..k]) && 2 <= |r| - k - 1 <= 6 && AllLetters(r[k + 1..]);
    forall j | 0 <= j < x ensures s[j] != '@' {
      assert s[..x][j] == s[j];
    }
    forall j | x < j < |s| ensures s[j] != '@' {
      var m := j - x - 1;
      assert r[m] == s[j];
      if m < k {
        assert r[..k][m] == r[m];
      } else if m > k {
        assert r[k + 1..][m - k - 1] == r[m];
      }
    }
  }

  /** Any local part, domain and top-level domain drawn from the allowed
      characters assemble into an address the rule accepts. */
  lemma EmailFromParts(local: string, domain: string, tld: string)
    requires |local| >= 1 && AllLocal(local)
    requires |domain| >= 1 && AllDomain(domain)
    requires 2 <= |tld| <= 6 && AllLetters(tld)
    ensures IsEmail(local + "@" + domain + "." + tld)
  {
    var s := local + "@" + domain + "." + tld;
    var r := domain + "." + tld;
    assert s[|local|] == '@';
    assert s[..|local|] == local;
    assert s[|local| + 1..] == r;
    assert r[|domain|] == '.';
    assert r[..|domain|] == domain;
    assert r[|domain| + 1..] == tld;
    assert DomainWithTld(r);
  }
}
