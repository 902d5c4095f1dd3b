/**
 The two field validators of the sign-in/sign-up form.

 The screen writes them as anchored regular expressions:
   email: ^[a-zA-Z0-9._%+-]+@[a-zA-Z0-9.-]+\.[a-zA-Z]{2,}$
   phone: ^[0-9]{10}$
 Each is given here twice: once as the language the expression denotes
 (EmailShape, DigitRun) and once as a direct scan (IsValidEmail) or a
 closed form (the characterisation of IsValidPhone), with lemmas that the
 two agree.
 */
module Validation {

  // ---------------------------------------------------------------------
  // Character classes (ASCII ranges, no case folding: the expressions carry no flags)
  // ---------------------------------------------------------------------

  /** [0-9] */
  predicate IsDigit(c: char) { '0' <= c <= '9' }

  /** [a-zA-Z] */
  predicate IsLetter(c: char) { 'a' <= c <= 'z' || 'A' <= c <= 'Z' }

  /** [a-zA-Z0-9._%+-], the class of the part before the '@' */
  predicate IsLocalChar(c: char) {
    IsLetter(c) || IsDigit(c) || c == '.' || c == '_' || c == '%' || c == '+' || c == '-'
  }

  /** [a-zA-Z0-9.-], the class of the part between the '@' and the final '.' */
  predicate IsDomainChar(c: char) {
    IsLetter(c) || IsDigit(c) || c == '.' || c == '-'
  }

  /** Every character of s is in the class p. */
  predicate All(s: string, p: char -> bool) {
    forall i :: 0 <= i < |s| ==> p(s[i])
  }

  // ---------------------------------------------------------------------
  // Searching for a character
  // ---------------------------------------------------------------------

  /** Index of the first occurrence of c in s, or -1 when c does not occur. */
  function FirstIndex(s: string, c: char): (r: int)
    ensures -1 <= r < |s|
    ensures 0 <= r ==> s[r] == c
    ensures forall j :: 0 <= j < |s| && (r < 0 || j < r) ==> s[j] != c
  {
    if s == [] then -1
    else if s[0] == c then 0
    else
      var k := FirstIndex(s[1..], c);
      if k < 0 then -1 else k + 1
  }

  /** Index of the last occurrence of c in s, or -1 when c does not occur. */
  function LastIndex(s: string, c: char): (r: int)
    ensures -1 <= r < |s|
    ensures 0 <= r ==> s[r] == c
    ensures forall j :: 0 <= j < |s| && r < j ==> s[j] != c
  {
    if s == [] then -1
    else if s[|s| - 1] == c then |s| - 1
    else LastIndex(s[..|s| - 1], c)
  }

  /** The first occurrence is the only position holding c that has no c before it. */
  lemma FirstIndexAt(s: string, c: char, k: nat)
    requires k < |s| && s[k] == c
    requires forall j :: 0 <= j < k ==> s[j] != c
    ensures FirstIndex(s, c) == k
  {
  }

  /** The last occurrence is the only position holding c that has no c after it. */
  lemma LastIndexAt(s: string, c: char, k: nat)
    requires k < |s| && s[k] == c
    requires forall j :: k < j < |s| ==> s[j] != c
    ensures LastIndex(s, c) == k
  {
  }

  // ---------------------------------------------------------------------
  // Email: the language of the regular expression
  // ---------------------------------------------------------------------

  /**
   s splits as local "@" domain "." tld with each part in its class:
   local is [a-zA-Z0-9._%+-]+, domain is [a-zA-Z0-9.-]+, tld is [a-zA-Z]{2,}.
   */
  predicate EmailParts(s: string, local: string, domain: string, tld: string) {
    s == local + "@" + domain + "." + tld &&
    |local| >= 1 && All(local, IsLocalChar) &&
    |domain| >= 1 && All(domain, IsDomainChar) &&
    |tld| >= 2 && All(tld, IsLetter)
  }

  /** s is in the language of the email expression: some split exists. */
  ghost predicate EmailShape(s: string) {
    exists local, domain, tld :: EmailParts(s, local, domain, tld)
  }

  // ---------------------------------------------------------------------
  // Email: the executable scan
  // ---------------------------------------------------------------------

  /**
   isValidEmail as a scan: exactly one '@' (its first and last occurrence
   coincide), a non-empty local part before it; after it, the domain runs up
   to the last '.', and the top-level domain after that dot is two or more
   letters.
   */
  predicate IsValidEmail(s: string) {
    var at := FirstIndex(s, '@');
    if at < 0 || LastIndex(s, '@') != at then false
    else
      var local, rest := s[..at], s[at + 1..];
      var dot := LastIndex(rest, '.');
      dot >= 1 && |rest| - dot - 1 >= 2 &&
      |local| >= 1 && All(local, IsLocalChar) &&
      All(rest[..dot], IsDomainChar) &&
      All(rest[dot + 1..], IsLetter)
  }

  /** Where each part of local "@" domain "." tld sits in the whole string. */
  lemma PartsLayout(s: string, local: string, domain: string, tld: string)
    requires s == local + "@" + domain + "." + tld
    ensures |s| == |local| + |domain| + |tld| + 2
    ensures forall j :: 0 <= j < |local| ==> s[j] == local[j]
    ensures s[|local|] == '@'
    ensures forall j :: 0 <= j < |domain| ==> s[|local| + 1 + j] == domain[j]
    ensures s[|local| + 1 + |domain|] == '.'
    ensures forall j :: 0 <= j < |tld| ==> s[|local| + 2 + |domain| + j] == tld[j]
  {
  }

  /** The last '.' of domain "." tld is the one before tld, which holds only letters. */
  lemma LastDotBeforeTld(rest: string, domain: string, tld: string)
    requires rest == domain + "." + tld && All(tld, IsLetter)
    ensures LastIndex(rest, '.') == |domain|
  {
    forall j | |domain| < j < |rest| ensures rest[j] != '.' {
      assert rest[j] == tld[j - |domain| - 1] && IsLetter(tld[j - |domain| - 1]);
    }
    LastIndexAt(rest, '.', |domain|);
  }

  /** What lies before and after a one-character separator. */
  lemma SplitAround(s: string, x: string, c: char, y: string)
    requires s == x + [c] + y
    ensures s[..|x|] == x && s[|x|] == c && s[|x| + 1..] == y
  {
  }

  /** The part after the '@' of local "@" domain "." tld. */
  lemma AfterAt(s: string, local: string, domain: string, tld: string)
    requires s == local + "@" + domain + "." + tld
    ensures s[..|local|] == local
    ensures s[|local| + 1..] == domain + "." + tld
  {
    assert s == local + ['@'] + (domain + "." + tld);
    SplitAround(s, local, '@', domain + "." + tld);
  }

  /** Neither the local part, the domain nor the top-level domain holds an '@': the one between them is the only one. */
  lemma SingleAt(s: string, local: string, domain: string, tld: string)
    requires EmailParts(s, local, domain, tld)
    ensures FirstIndex(s, '@') == |local| && LastIndex(s, '@') == |local|
  {
    PartsLayout(s, local, domain, tld);
    var a, b := |local|, |local| + 1 + |domain|;
    forall j | 0 <= j < |s| && j != a ensures s[j] != '@' {
      if j < a {
        assert s[j] == local[j] && IsLocalChar(local[j]);
      } else if j < b {
        assert s[j] == domain[j - a - 1] && IsDomainChar(domain[j - a - 1]);
      } else if j > b {
        assert s[j] == tld[j - b - 1] && IsLetter(tld[j - b - 1]);
      }
    }
    FirstIndexAt(s, '@', a);
    LastIndexAt(s, '@', a);
  }

  /**
   A split in the regular language is exactly what the scan finds: the '@'
   found is the end of the local part, and the last '.' after it is the end
   of the domain; so the scan accepts.
   */
  lemma PartsAreScanned(s: string, local: string, domain: string, tld: string)
    requires EmailParts(s, local, domain, tld)
    ensures FirstIndex(s, '@') == |local| && LastIndex(s, '@') == |local|
    ensures LastIndex(s[|local| + 1..], '.') == |domain|
    ensures IsValidEmail(s)
  {
    SingleAt(s, local, domain, tld);
    AfterAt(s, local, domain, tld);
    var rest := s[|local| + 1..];
    LastDotBeforeTld(rest, domain, tld);
    assert rest[..|domain|] == domain;
    assert rest[|domain| + 1..] == tld;
  }

  /** A string cut at an '@' and, after it, at a '.' is the concatenation of the pieces. */
  lemma CutTwice(s: string, at: nat, dot: nat)
    requires at < |s| && s[at] == '@'
    requires dot < |s[at + 1..]| && s[at + 1..][dot] == '.'
    ensures s == s[..at] + "@" + s[at + 1..][..dot] + "." + s[at + 1..][dot + 1..]
  {
    var rest := s[at + 1..];
    assert rest == rest[..dot] + "." + rest[dot + 1..];
    assert s == s[..at] + "@" + rest;
  }

  /** Whatever the scan accepts has a split in the regular language. */
  lemma ScanHasParts(s: string)
    requires IsValidEmail(s)
    ensures EmailShape(s)
  {
    var at := FirstIndex(s, '@');
    var rest := s[at + 1..];
    var dot := LastIndex(rest, '.');
    CutTwice(s, at, dot);
    assert EmailParts(s, s[..at], rest[..dot], rest[dot + 1..]);
  }

  /** The scan decides exactly the language of the email expression. */
  lemma EmailScanCorrect(s: string)
    ensures IsValidEmail(s) <==> EmailShape(s)
  {
    if IsValidEmail(s) {
      ScanHasParts(s);
    }
    if EmailShape(s) {
      var local, domain, tld :| EmailParts(s, local, domain, tld);
      PartsAreScanned(s, local, domain, tld);
    }
  }

  /** A string with c at k and nowhere else holds c exactly once. */
  lemma OccursOnce(s: string, c: char, k: nat)
    requires k < |s| && s[k] == c
    requires forall j :: 0 <= j < |s| && j != k ==> s[j] != c
    ensures multiset(s)[c] == 1
  {
    var before, after := s[..k], s[k + 1..];
    assert s == before + [c] + after;
    assert c !in before by {
      forall j | 0 <= j < |before| ensures before[j] != c { assert before[j] == s[j]; }
    }
    assert c !in after by {
      forall j | 0 <= j < |after| ensures after[j] != c { assert after[j] == s[k + 1 + j]; }
    }
    assert multiset(s) == multiset(before) + multiset([c]) + multiset(after);
  }

  /** An accepted address holds exactly one '@', and the local part is everything before it. */
  lemma AcceptedEmailHasOneAt(s: string, local: string, domain: string, tld: string)
    requires EmailParts(s, local, domain, tld)
    ensures multiset(s)['@'] == 1
    ensures s[..FirstIndex(s, '@')] == local
  {
    SingleAt(s, local, domain, tld);
    OccursOnce(s, '@', |local|);
    AfterAt(s, local, domain, tld);
  }

  /** In an accepted address the top-level domain is everything after the last '.'. */
  lemma AcceptedEmailTld(s: string, local: string, domain: string, tld: string)
    requires EmailParts(s, local, domain, tld)
    ensures LastIndex(s, '.') == |s| - |tld| - 1
    ensures s[|s| - |tld|..] == tld
  {
    var front := local + "@" + domain;
    assert s == front + "." + tld;
    LastDotBeforeTld(s, front, tld);
  }

  /** The split is unique: the expression leaves no choice of where each part ends. */
  lemma EmailPartsUnique(s: string, l1: string, d1: string, t1: string, l2: string, d2: string, t2: string)
    requires EmailParts(s, l1, d1, t1) && EmailParts(s, l2, d2, t2)
    ensures l1 == l2 && d1 == d2 && t1 == t2
  {
    PartsAreScanned(s, l1, d1, t1);
    PartsAreScanned(s, l2, d2, t2);
    AfterAt(s, l1, d1, t1);
    AfterAt(s, l2, d2, t2);
    var rest := s[|l1| + 1..];
    SplitAround(rest, d1, '.', t1);
    SplitAround(rest, d2, '.', t2);
  }

  // ---------------------------------------------------------------------
  // Phone
  // ---------------------------------------------------------------------

  /** The anchored expression ^[0-9]{n}$: n digits and nothing else. */
  predicate DigitRun(s: string, n: nat)
    decreases n
  {
    if n == 0 then s == []
    else |s| >= 1 && IsDigit(s[0]) && DigitRun(s[1..], n - 1)
  }

  /** isValidPhone: ^[0-9]{10}$ */
  predicate IsValidPhone(s: string) {
    DigitRun(s, 10)
  }

  /** [0-9]{n} matches exactly the strings of n characters that are all digits. */
  lemma {:induction false} DigitRunIff(s: string, n: nat)
    ensures DigitRun(s, n) <==> |s| == n && All(s, IsDigit)
    decreases n
  {
    if n > 0 && |s| >= 1 {
      DigitRunIff(s[1..], n - 1);
      if All(s[1..], IsDigit) && IsDigit(s[0]) {
        forall i | 0 <= i < |s| ensures IsDigit(s[i]) {
          if i > 0 { assert s[i] == s[1..][i - 1]; }
        }
      }
      if All(s, IsDigit) {
        forall i | 0 <= i < |s[1..]| ensures IsDigit(s[1..][i]) {
          assert s[1..][i] == s[i + 1];
        }
      }
    }
  }

  /** A phone number is valid exactly when it is ten characters, all of them ASCII digits. */
  lemma PhoneCharacterization(s: string)
    ensures IsValidPhone(s) <==> |s| == 10 && All(s, IsDigit)
  {
    DigitRunIff(s, 10);
  }

  /** "12345" is too short and "12345abcde" holds letters. */
  lemma PhoneRejections()
    ensures !IsValidPhone("12345")
    ensures !IsValidPhone("12345abcde")
  {
    PhoneCharacterization("12345");
    var letters := "12345abcde";
    PhoneCharacterization(letters);
    assert letters[5] == 'a' && !IsDigit(letters[5]);
  }

  /** "abc@" has nothing after its '@' and is rejected; an ordinary address is accepted. */
  lemma EmailExamples()
    ensures !EmailShape("abc@")
    ensures EmailShape("alice@example.com")
  {
    var bad := "abc@";
    FirstIndexAt(bad, '@', 3);
    LastIndexAt(bad, '@', 3);
    assert bad[4..] == [];
    EmailScanCorrect(bad);
    assert EmailParts("alice@example.com", "alice", "example", "com");
  }
}
