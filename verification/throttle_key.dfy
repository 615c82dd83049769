/** The throttle key of a login request: the lower-cased login, a `|`,
    then the client address. Lower-casing is modelled on ASCII letters only and
    transliteration as the identity (both are identities on the rest of ASCII). */
module ThrottleKey {

  const Separator: char := '|'

  predicate IsUpper(c: char) {
    'A' <= c <= 'Z'
  }

  /** ASCII lower-casing of one character. */
  function LowerChar(c: char): (r: char)
    ensures !IsUpper(r)
    ensures !IsUpper(c) ==> r == c
  {
    if IsUpper(c) then (c as int + 32) as char else c
  }

  /** `Str::lower` on ASCII. */
  function Lower(s: string): (r: string)
    ensures |r| == |s|
    ensures forall i :: 0 <= i < |s| ==> r[i] == LowerChar(s[i])
  {
    seq(|s|, i requires 0 <= i < |s| => LowerChar(s[i]))
  }

  /** Two characters that are equal, or the same ASCII letter in two cases. */
  predicate SameIgnoringCase(a: char, b: char) {
    a == b || (IsUpper(a) && b as int == a as int + 32) || (IsUpper(b) && a as int == b as int + 32)
  }

  predicate EqualIgnoringCase(s: string, t: string) {
    |s| == |t| && forall i :: 0 <= i < |s| ==> SameIgnoringCase(s[i], t[i])
  }

  /** The throttle key `lower(login) . '|' . ip`. */
  function Key(login: string, ip: string): (r: string)
    ensures |r| == |login| + 1 + |ip|
    ensures forall i :: 0 <= i < |login| ==> r[i] == LowerChar(login[i])
    ensures r[|login|] == Separator
    ensures r[|login| + 1..] == ip
  {
    Lower(login) + [Separator] + ip
  }

  /** Lower-casing identifies exactly the strings that differ only in letter case. */
  lemma LowerEqualIff(s: string, t: string)
    ensures Lower(s) == Lower(t) <==> EqualIgnoringCase(s, t)
  {
  }

  /** From one address, two logins share a throttle key exactly when they differ
      only in ASCII letter case. */
  lemma SameKeyIffCaseInsensitive(a: string, b: string, ip: string)
    ensures Key(a, ip) == Key(b, ip) <==> EqualIgnoringCase(a, b)
  {
  }

  /** Addresses never contain the separator, so requests from two different
      addresses never share a throttle key, whatever their logins. */
  lemma DistinctAddressesDistinctKeys(a: string, ipA: string, b: string, ipB: string)
    requires Separator !in ipA && Separator !in ipB
    requires ipA != ipB
    ensures Key(a, ipA) != Key(b, ipB)
  {
  }

  /** The example the login form is meant to support: mixed-case and
      lower-case spellings of one email address collide. */
  lemma MixedCaseEmailCollides(ip: string)
    ensures Key("User@Example.com", ip) == Key("user@example.com", ip)
  {
  }
}
