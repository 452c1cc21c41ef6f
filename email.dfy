/**
 * Email normalisation as create_user applies it (Django's
 * BaseUserManager.normalize_email): strip surrounding whitespace, split at
 * the LAST '@', keep the local part verbatim and lower-case the domain; an
 * address without '@' is returned as given, unstripped.
 * Lower-casing and whitespace are ASCII only.
 */
module Email {
  import opened Wrappers

  predicate IsSpace(c: char) {
    c == ' ' || 9 <= c as int <= 13 || 28 <= c as int <= 31
  }

  predicate IsUpper(c: char) {
    'A' <= c <= 'Z'
  }

  function LowerChar(c: char): (r: char)
    ensures !IsUpper(r)
    ensures IsSpace(r) <==> IsSpace(c)
    ensures r == '@' <==> c == '@'
    ensures !IsUpper(c) ==> r == c
    ensures IsUpper(c) ==> r as int == c as int + 32
  {
    if IsUpper(c) then (c as int + 32) as char else c
  }

  function Lower(s: string): (r: string)
    ensures |r| == |s|
    ensures forall i :: 0 <= i < |s| ==> r[i] == LowerChar(s[i])
  {
    seq(|s|, i requires 0 <= i < |s| => LowerChar(s[i]))
  }

  /** No leading and no trailing whitespace. */
  predicate Stripped(s: string) {
    s == [] || (!IsSpace(s[0]) && !IsSpace(s[|s| - 1]))
  }

  /** The number of whitespace characters that start `s`. */
  function LeadingSpaces(s: string): (k: nat)
    ensures k <= |s|
    ensures forall i :: 0 <= i < k ==> IsSpace(s[i])
    ensures k < |s| ==> !IsSpace(s[k])
  {
    if |s| > 0 && IsSpace(s[0]) then 1 + LeadingSpaces(s[1..]) else 0
  }

  /** The number of whitespace characters that end `s`. */
  function TrailingSpaces(s: string): (k: nat)
    ensures k <= |s|
    ensures forall i :: |s| - k <= i < |s| ==> IsSpace(s[i])
    ensures k < |s| ==> !IsSpace(s[|s| - 1 - k])
  {
    if |s| > 0 && IsSpace(s[|s| - 1]) then 1 + TrailingSpaces(s[..|s| - 1]) else 0
  }

  /** Python's str.strip() without arguments. */
  function Strip(s: string): (r: string)
    ensures Stripped(r)
    ensures forall c :: c in r ==> c in s
    ensures Stripped(s) ==> r == s
  {
    var t := s[LeadingSpaces(s)..];
    t[..|t| - TrailingSpaces(t)]
  }

  /** What Strip removes: the whitespace run that starts `s` and the one that ends it, and nothing else. */
  lemma StripRemovesOuterSpace(s: string)
    ensures LeadingSpaces(s) + |Strip(s)| <= |s|
    ensures Strip(s) == s[LeadingSpaces(s)..LeadingSpaces(s) + |Strip(s)|]
    ensures forall k :: 0 <= k < LeadingSpaces(s) ==> IsSpace(s[k])
    ensures forall k :: LeadingSpaces(s) + |Strip(s)| <= k < |s| ==> IsSpace(s[k])
  {
    var i := LeadingSpaces(s);
    var t := s[i..];
    var n := |t| - TrailingSpaces(t);
    assert Strip(s) == t[..n];
    assert t[..n] == s[i..i + n];
    forall k | i + n <= k < |s|
      ensures IsSpace(s[k])
    {
      assert s[k] == t[k - i];
    }
  }

  /** The position of the last '@' in `s`, as rsplit('@', 1) finds it. */
  function LastAt(s: string): (r: Option<nat>)
    ensures r.None? <==> '@' !in s
    ensures r.Some? ==> r.value < |s| && s[r.value] == '@' && '@' !in s[r.value + 1..]
  {
    if |s| == 0 then None
    else if s[|s| - 1] == '@' then Some(|s| - 1)
    else
      var r := LastAt(s[..|s| - 1]);
      assert s == s[..|s| - 1] + [s[|s| - 1]];
      if r.Some? then
        assert s[r.value + 1..] == s[..|s| - 1][r.value + 1..] + [s[|s| - 1]];
        r
      else r
  }

  function Normalize(email: string): string {
    var s := Strip(email);
    match LastAt(s)
    case None => email
    case Some(k) => s[..k] + "@" + Lower(s[k + 1..])
  }

  /** The last '@' of `local + "@" + domain` is the one between them when the domain has none. */
  lemma LastAtOfSplit(local: string, domain: string)
    requires '@' !in domain
    ensures LastAt(local + "@" + domain) == Some(|local|)
  {
    var e := local + "@" + domain;
    assert e[|local|] == '@';
    assert e[|local| + 1..] == domain;
  }

  /** For an address without surrounding whitespace: local part verbatim, domain lower-cased. */
  lemma NormalizeSplit(local: string, domain: string)
    requires '@' !in domain
    requires Stripped(local + "@" + domain)
    ensures Normalize(local + "@" + domain) == local + "@" + Lower(domain)
  {
    var e := local + "@" + domain;
    LastAtOfSplit(local, domain);
    assert e[..|local|] == local;
    assert e[|local| + 1..] == domain;
  }

  /** An address without '@' is stored as given. */
  lemma NormalizeWithoutAt(email: string)
    requires '@' !in email
    ensures Normalize(email) == email
  {
    assert '@' !in Strip(email);
  }

  /** Two strings with whitespace at the same positions. */
  predicate SameSpacing(a: string, b: string) {
    |a| == |b| && forall i :: 0 <= i < |a| ==> (IsSpace(a[i]) <==> IsSpace(b[i]))
  }

  /** Strings with the same spacing end in whitespace runs of the same length. */
  lemma TrailingSpacesOfSameSpacing(a: string, b: string)
    requires SameSpacing(a, b)
    ensures TrailingSpaces(a) == TrailingSpaces(b)
  {
  }

  /** The leading whitespace of an address lies in its local part. */
  lemma {:induction false} LeadingSpacesOfAddress(local: string, domain: string)
    ensures LeadingSpaces(local + "@" + domain) == LeadingSpaces(local)
    decreases |local|
  {
    var e := local + "@" + domain;
    if |local| > 0 && IsSpace(local[0]) {
      assert e[1..] == local[1..] + "@" + domain;
      LeadingSpacesOfAddress(local[1..], domain);
    } else {
      assert e[0] == if |local| > 0 then local[0] else '@';
    }
  }

  /** The trailing whitespace of an address lies in its domain. */
  lemma {:induction false} TrailingSpacesOfAddress(local: string, domain: string)
    ensures TrailingSpaces(local + "@" + domain) == TrailingSpaces(domain)
    decreases |domain|
  {
    var e := local + "@" + domain;
    if |domain| > 0 && IsSpace(domain[|domain| - 1]) {
      assert e[..|e| - 1] == local + "@" + domain[..|domain| - 1];
      TrailingSpacesOfAddress(local, domain[..|domain| - 1]);
    } else {
      assert e[|e| - 1] == if |domain| > 0 then domain[|domain| - 1] else '@';
    }
  }

  /** Stripping an address strips the front of its local part and the end of its domain. */
  lemma StripAddress(local: string, domain: string)
    ensures Strip(local + "@" + domain)
         == local[LeadingSpaces(local)..] + "@" + domain[..|domain| - TrailingSpaces(domain)]
  {
    var e := local + "@" + domain;
    var i := LeadingSpaces(local);
    var l := local[i..];
    LeadingSpacesOfAddress(local, domain);
    var t := l + "@" + domain;
    assert e[i..] == t;
    TrailingSpacesOfAddress(l, domain);
    var j := |domain| - TrailingSpaces(domain);
    assert Strip(e) == t[..|t| - TrailingSpaces(t)];
    assert |t| - TrailingSpaces(t) == |l| + 1 + j;
    assert t[..|l| + 1 + j] == l + "@" + domain[..j];
  }

  /** Stripping never removes an '@'. */
  lemma StripKeepsAt(email: string)
    requires '@' in email
    ensures '@' in Strip(email)
  {
    var k :| 0 <= k < |email| && email[k] == '@';
    StripRemovesOuterSpace(email);
    var i := LeadingSpaces(email);
    assert i <= k < i + |Strip(email)| by {
      assert !IsSpace(email[k]);
    }
    assert Strip(email)[k - i] == '@';
  }

  /** normalize_email strips before it splits: an address with '@' normalises as its stripped form does. */
  lemma NormalizeStripsFirst(email: string)
    requires '@' in email
    ensures Normalize(email) == Normalize(Strip(email))
  {
    StripKeepsAt(email);
    var s := Strip(email);
    assert Strip(s) == s;
  }

  /** A whole address: the front of the local part and the end of the domain are stripped, the rest of the domain lower-cased. */
  lemma NormalizeAddress(local: string, domain: string)
    requires '@' !in domain
    ensures Normalize(local + "@" + domain)
         == local[LeadingSpaces(local)..] + "@" + Lower(domain[..|domain| - TrailingSpaces(domain)])
  {
    var l, d := local[LeadingSpaces(local)..], domain[..|domain| - TrailingSpaces(domain)];
    StripAddress(local, domain);
    assert '@' !in d;
    NormalizeSplit(l, d);
    NormalizeStripsFirst(local + "@" + domain);
  }

  /**
   * Addresses that differ only in the case of their domain normalise to the
   * same address, whatever whitespace surrounds them.
   */
  lemma NormalizeIgnoresDomainCase(local: string, d1: string, d2: string)
    requires '@' !in d1 && '@' !in d2
    requires Lower(d1) == Lower(d2)
    ensures Normalize(local + "@" + d1) == Normalize(local + "@" + d2)
  {
    assert SameSpacing(d1, d2) by {
      forall i | 0 <= i < |d1|
        ensures IsSpace(d1[i]) <==> IsSpace(d2[i])
      {
        assert LowerChar(d1[i]) == Lower(d1)[i] == Lower(d2)[i] == LowerChar(d2[i]);
      }
    }
    TrailingSpacesOfSameSpacing(d1, d2);
    var j := |d1| - TrailingSpaces(d1);
    assert Lower(d1[..j]) == Lower(d2[..j]) by {
      forall i | 0 <= i < j
        ensures Lower(d1[..j])[i] == Lower(d2[..j])[i]
      {
        assert Lower(d1[..j])[i] == Lower(d1)[i] && Lower(d2[..j])[i] == Lower(d2)[i];
      }
    }
    NormalizeAddress(local, d1);
    NormalizeAddress(local, d2);
  }

  /** An address whose domain has no upper-case letter is stored unchanged. */
  lemma NormalizedIsUnchanged(local: string, domain: string)
    requires '@' !in domain
    requires forall i :: 0 <= i < |domain| ==> !IsUpper(domain[i])
    requires Stripped(local + "@" + domain)
    ensures Normalize(local + "@" + domain) == local + "@" + domain
  {
    NormalizeSplit(local, domain);
    assert Lower(domain) == domain;
  }

  /** Lower-casing adds no '@' and is idempotent. */
  lemma LowerKeepsShape(d: string)
    ensures '@' in Lower(d) <==> '@' in d
    ensures Lower(Lower(d)) == Lower(d)
  {
    var l := Lower(d);
    if '@' in l {
      var i :| 0 <= i < |l| && l[i] == '@';
      assert d[i] == '@';
    }
    if '@' in d {
      var i :| 0 <= i < |d| && d[i] == '@';
      assert l[i] == '@';
    }
  }

  /** Lower-casing the domain keeps an address free of surrounding whitespace. */
  lemma LowerDomainKeepsStripped(local: string, domain: string)
    requires Stripped(local + "@" + domain)
    ensures Stripped(local + "@" + Lower(domain))
  {
    var e, r := local + "@" + domain, local + "@" + Lower(domain);
    if |domain| > 0 {
      assert r[|r| - 1] == LowerChar(e[|e| - 1]);
    }
    if |local| > 0 {
      assert r[0] == e[0];
    }
  }

  /** Normalising twice is normalising once. */
  lemma NormalizeIdempotent(email: string)
    ensures Normalize(Normalize(email)) == Normalize(email)
  {
    var s := Strip(email);
    match LastAt(s)
    case None =>
    case Some(k) =>
      var local, domain := s[..k], s[k + 1..];
      assert s == local + "@" + domain;
      assert '@' !in domain;
      LowerKeepsShape(domain);
      LowerDomainKeepsStripped(local, domain);
      NormalizeSplit(local, Lower(domain));
  }

  /** NormalizeSplit for an address given whole, as a literal. */
  lemma NormalizeSplitAddress(email: string, local: string, domain: string, lowered: string, expected: string)
    requires email == local + "@" + domain && expected == local + "@" + lowered
    requires '@' !in domain && Stripped(email) && Lower(domain) == lowered
    ensures Normalize(email) == expected
  {
    NormalizeSplit(local, domain);
  }

  /** Model test sample: a domain in capitals is lower-cased. */
  lemma NormalizeSampleUpperDomain()
    ensures Normalize("Email1@EXAMPLE.com") == "Email1@example.com"
  {
    NormalizeSplitAddress("Email1@EXAMPLE.com", "Email1", "EXAMPLE.com", "example.com", "Email1@example.com");
  }

  /** Model test sample: a local part in capitals is kept. */
  lemma NormalizeSampleUpperLocal()
    ensures Normalize("EMAIL2@example.com") == "EMAIL2@example.com"
  {
    NormalizeSplitAddress("EMAIL2@example.com", "EMAIL2", "example.com", "example.com", "EMAIL2@example.com");
  }

  /** Model test sample: a domain in mixed case is lower-cased. */
  lemma NormalizeSampleMixedDomain()
    ensures Normalize("email3@Example.Com") == "email3@example.com"
  {
    NormalizeSplitAddress("email3@Example.Com", "email3", "Example.Com", "example.com", "email3@example.com");
  }

  /** Model test sample: a domain wholly in capitals is lower-cased, the local part kept. */
  lemma NormalizeSampleCapitalDomain()
    ensures Normalize("Email4@EXAMPLE.COM") == "Email4@example.com"
  {
    NormalizeSplitAddress("Email4@EXAMPLE.COM", "Email4", "EXAMPLE.COM", "example.com", "Email4@example.com");
  }

  /** A non-empty address never normalises to the empty string, so the emptiness check before normalising suffices. */
  lemma NormalizeKeepsNonEmpty(email: string)
    requires email != ""
    ensures Normalize(email) != ""
  {
  }

}
