/**
 * The contact e-mail format, a case-insensitive pattern anchored at both ends: a local part
 * of characters that are neither `@` nor white space, an `@`, one or more labels of letters,
 * digits and hyphens each followed by a dot, and a top-level label of at least two letters.
 *
 * `EmailShape` describes the strings the pattern generates; `IsEmail` recognises them
 * character by character, and its contract says it accepts exactly those strings.
 */
module EmailFormat {
  import opened Wrappers

  /** The white-space class of the pattern: space, tab, line feed, vertical tab, form feed, return. */
  predicate IsSpace(c: char) {
    c == ' ' || c == '\t' || c == '\n' || c == '\U{B}' || c == '\U{C}' || c == '\r'
  }

  /** A letter, in either case (the pattern is case-insensitive). */
  predicate IsLetter(c: char) {
    ('a' <= c <= 'z') || ('A' <= c <= 'Z')
  }

  predicate IsLabelChar(c: char) {
    c == '-' || IsLetter(c) || ('0' <= c <= '9')
  }

  predicate IsLocalPart(s: string) {
    |s| > 0 && forall i :: 0 <= i < |s| ==> s[i] != '@' && !IsSpace(s[i])
  }

  predicate IsLabel(s: string) {
    |s| > 0 && forall i :: 0 <= i < |s| ==> IsLabelChar(s[i])
  }

  predicate IsTopLevel(s: string) {
    |s| >= 2 && forall i :: 0 <= i < |s| ==> IsLetter(s[i])
  }

  /** The position of the first occurrence of `c` in `s`, if any. */
  function IndexOf(s: string, c: char): (r: Option<nat>)
    ensures r.None? <==> c !in s
    ensures r.Some? ==> r.value < |s| && s[r.value] == c && c !in s[..r.value]
  {
    if s == [] then None
    else if s[0] == c then Some(0)
    else match IndexOf(s[1..], c)
      case None => None
      case Some(k) =>
        assert s[..k + 1] == [s[0]] + s[1..][..k];
        Some(k + 1)
  }

  /** Where `c` does not occur in `a`, the first `c` of `a + [c] + b` is the one after `a`. */
  lemma IndexOfAfter(a: string, c: char, b: string)
    requires c !in a
    ensures IndexOf(a + [c] + b, c) == Some(|a|)
  {
    assert (a + [c] + b)[|a|] == c;
  }

  // The strings the pattern generates.

  function Dotted(labels: seq<string>): string {
    if labels == [] then "" else labels[0] + "." + Dotted(labels[1..])
  }

  function Domain(labels: seq<string>, tld: string): string {
    Dotted(labels) + tld
  }

  function Address(local: string, domain: string): string {
    local + "@" + domain
  }

  ghost predicate AllLabels(labels: seq<string>) {
    forall k :: 0 <= k < |labels| ==> IsLabel(labels[k])
  }

  ghost predicate DomainShape(d: string) {
    exists labels, tld :: |labels| >= 1 && AllLabels(labels) && IsTopLevel(tld) && d == Domain(labels, tld)
  }

  ghost predicate EmailShape(s: string) {
    exists local, domain :: IsLocalPart(local) && DomainShape(domain) && s == Address(local, domain)
  }

  lemma NoDotInLabel(s: string)
    requires IsLabel(s)
    ensures '.' !in s
  {
    forall k | 0 <= k < |s| ensures s[k] != '.' {
      assert IsLabelChar(s[k]);
    }
  }

  /** A generated domain starts with its first label and a dot; what follows is the
      top-level label or again a generated domain. */
  lemma ShapeSplits(labels: seq<string>, tld: string)
    requires |labels| >= 1 && AllLabels(labels) && IsTopLevel(tld)
    ensures var d, n := Domain(labels, tld), |labels[0]|;
      && IndexOf(d, '.') == Some(n) && d[..n] == labels[0] && IsLabel(labels[0])
      && (IsTopLevel(d[n + 1..]) || DomainShape(d[n + 1..]))
  {
    var first, rest := labels[0], Domain(labels[1..], tld);
    var d := Domain(labels, tld);
    assert d == first + "." + rest;
    assert IsLabel(first);
    NoDotInLabel(first);
    IndexOfAfter(first, '.', rest);
    assert d[..|first|] == first && d[|first| + 1..] == rest;
    if |labels| > 1 {
      assert AllLabels(labels[1..]) by {
        forall k | 0 <= k < |labels[1..]| ensures IsLabel(labels[1..][k]) {
          assert labels[1..][k] == labels[k + 1];
        }
      }
    }
  }

  /** A label and a dot in front of a top-level label or of a generated domain give a generated domain. */
  lemma BuildShape(first: string, rest: string)
    requires IsLabel(first) && (IsTopLevel(rest) || DomainShape(rest))
    ensures DomainShape(first + "." + rest)
  {
    if IsTopLevel(rest) {
      var labels := [first];
      assert Dotted(labels) == first + "." + Dotted([]);
      assert first + "." + rest == Domain(labels, rest);
    } else {
      var more, tld :| |more| >= 1 && AllLabels(more) && IsTopLevel(tld) && rest == Domain(more, tld);
      var labels := [first] + more;
      assert labels[1..] == more;
      assert Dotted(labels) == first + "." + Dotted(more);
      assert first + "." + rest == Domain(labels, tld);
      assert AllLabels(labels) by {
        forall k | 0 <= k < |labels| ensures IsLabel(labels[k]) {
          if k > 0 { assert labels[k] == more[k - 1]; }
        }
      }
    }
  }

  /** The pattern's domain unfolded once, at its first dot: a label, then either the
      top-level label or again a domain of the pattern. Without a dot there is no domain. */
  lemma DomainStep(d: string)
    ensures IndexOf(d, '.').None? ==> !DomainShape(d)
    ensures IndexOf(d, '.').Some? ==>
      var i := IndexOf(d, '.').value;
      (DomainShape(d) <==> IsLabel(d[..i]) && (IsTopLevel(d[i + 1..]) || DomainShape(d[i + 1..])))
  {
    if DomainShape(d) {
      var labels, tld :| |labels| >= 1 && AllLabels(labels) && IsTopLevel(tld) && d == Domain(labels, tld);
      ShapeSplits(labels, tld);
    }
    if IndexOf(d, '.').Some? {
      var i := IndexOf(d, '.').value;
      var first, rest := d[..i], d[i + 1..];
      assert d == first + "." + rest;
      if IsLabel(first) && (IsTopLevel(rest) || DomainShape(rest)) {
        BuildShape(first, rest);
      }
    }
  }

  /** The pattern's address split at its `@`: the `@` is the first one, because the local
      part cannot contain one. */
  lemma EmailStep(s: string)
    ensures IndexOf(s, '@').None? ==> !EmailShape(s)
    ensures IndexOf(s, '@').Some? ==>
      var i := IndexOf(s, '@').value;
      (EmailShape(s) <==> IsLocalPart(s[..i]) && DomainShape(s[i + 1..]))
  {
    if EmailShape(s) {
      var local, domain :| IsLocalPart(local) && DomainShape(domain) && s == Address(local, domain);
      assert '@' !in local by {
        forall k | 0 <= k < |local| ensures local[k] != '@' {
          assert IsLocalPart(local);
        }
      }
      IndexOfAfter(local, '@', domain);
      assert s[..|local|] == local && s[|local| + 1..] == domain;
    }
    if IndexOf(s, '@').Some? {
      var i := IndexOf(s, '@').value;
      assert s == Address(s[..i], s[i + 1..]);
    }
  }

  /** Recognises one or more labels, each followed by a dot, then a top-level label:
      exactly the domains the pattern generates. */
  function IsDomain(d: string): (r: bool)
    ensures r <==> DomainShape(d)
    decreases |d|
  {
    DomainStep(d);
    match IndexOf(d, '.')
    case None => false
    case Some(i) => IsLabel(d[..i]) && (IsTopLevel(d[i + 1..]) || IsDomain(d[i + 1..]))
  }

  /** Recognises exactly the addresses the pattern generates. */
  function IsEmail(s: string): (r: bool)
    ensures r <==> EmailShape(s)
  {
    EmailStep(s);
    match IndexOf(s, '@')
    case None => false
    case Some(i) => IsLocalPart(s[..i]) && IsDomain(s[i + 1..])
  }
}
