/**
 * Format grammars for host names and addresses: DNS-1123 labels (RFC 1123)
 * and their wildcard variant, fully-qualified and wildcard domains, egress
 * rule domains, IPv4 addresses and CIDR blocks, Unix socket paths.
 */
module Domains {
  import opened Wrappers
  import opened Errors
  import opened Text

  const DNS1123LabelMaxLength: int := 63
  const DomainMaxLength: int := 255

  predicate IsAlphaNum(c: char)
  {
    ('a' <= c <= 'z') || ('A' <= c <= 'Z') || ('0' <= c <= '9')
  }

  predicate IsLabelChar(c: char)
  {
    IsAlphaNum(c) || c == '-'
  }

  /** The tail `[-a-zA-Z0-9]*[a-zA-Z0-9]` of the label grammar. */
  predicate MatchesLabelTail(t: string)
  {
    |t| >= 1 && IsAlphaNum(t[|t| - 1]) && forall i :: 0 <= i < |t| - 1 ==> IsLabelChar(t[i])
  }

  /** The label grammar `[a-zA-Z0-9]([-a-zA-Z0-9]*[a-zA-Z0-9])?`, matched against the whole string. */
  predicate MatchesLabel(s: string)
  {
    |s| >= 1 && IsAlphaNum(s[0]) && (|s| == 1 || MatchesLabelTail(s[1..]))
  }

  /** IsDNS1123Label: at most 63 characters matching the label grammar. */
  predicate IsDNS1123Label(s: string)
  {
    |s| <= DNS1123LabelMaxLength && MatchesLabel(s)
  }

  /** A label is 1 to 63 letters, digits and hyphens that neither starts nor ends with a hyphen. */
  lemma LabelShape(s: string)
    ensures IsDNS1123Label(s) <==>
      && 1 <= |s| <= DNS1123LabelMaxLength
      && IsAlphaNum(s[0]) && IsAlphaNum(s[|s| - 1])
      && forall i :: 0 <= i < |s| ==> IsLabelChar(s[i])
  {
    if 1 <= |s| && IsAlphaNum(s[0]) && IsAlphaNum(s[|s| - 1]) && (forall i :: 0 <= i < |s| ==> IsLabelChar(s[i])) && |s| > 1 {
      var t := s[1..];
      assert forall i :: 0 <= i < |t| - 1 ==> t[i] == s[i + 1];
    }
  }

  /** One alternative of the wildcard grammar: an optional `*` or `*-` followed by a label. */
  predicate WildcardSuffixed(t: string)
  {
    || MatchesLabel(t)
    || (|t| >= 1 && t[0] == '*' && MatchesLabel(t[1..]))
    || (|t| >= 2 && t[0] == '*' && t[1] == '-' && MatchesLabel(t[2..]))
  }

  /**
   * IsWildcardDNS1123Label, with the wildcard pattern `^\*|(\*|\*-)?(label)$`
   * read as it is written: alternation binds loosest, so the first
   * alternative only requires a leading `*` and the second is anchored
   * only at the end. The domain checks below use this predicate.
   */
  predicate IsWildcardDNS1123Label(s: string)
  {
    && |s| <= DNS1123LabelMaxLength
    && ((|s| >= 1 && s[0] == '*') || exists k :: 0 <= k <= |s| && WildcardSuffixed(s[k..]))
  }

  /** What the written pattern really accepts: anything starting with `*` or ending in a letter or digit. */
  lemma WildcardAsWrittenShape(s: string)
    ensures IsWildcardDNS1123Label(s) <==>
      |s| <= DNS1123LabelMaxLength && |s| >= 1 && (s[0] == '*' || IsAlphaNum(s[|s| - 1]))
  {
    if |s| <= DNS1123LabelMaxLength && |s| >= 1 && IsAlphaNum(s[|s| - 1]) {
      assert MatchesLabel(s[|s| - 1..]);
      assert WildcardSuffixed(s[|s| - 1..]);
    }
    if IsWildcardDNS1123Label(s) && !(|s| >= 1 && s[0] == '*') {
      var k :| 0 <= k <= |s| && WildcardSuffixed(s[k..]);
      var t := s[k..];
      assert |t| >= 1 && t[|t| - 1] == s[|s| - 1];
    }
  }

  /**
   * The wildcard label the pattern's comment describes, with the whole
   * pattern anchored: `*` alone, or an optional `*` or `*-` followed by a
   * label; at most 63 characters.
   */
  predicate IsIntendedWildcardLabel(s: string)
  {
    |s| <= DNS1123LabelMaxLength && (s == "*" || WildcardSuffixed(s))
  }

  /** Every plain label is a wildcard label, and the anchored grammar accepts less than the written one. */
  lemma WildcardLabelInclusions(s: string)
    ensures IsDNS1123Label(s) ==> IsIntendedWildcardLabel(s)
    ensures IsIntendedWildcardLabel(s) ==> IsWildcardDNS1123Label(s)
  {
    if IsIntendedWildcardLabel(s) && s != "*" {
      assert s[0..] == s;
      assert WildcardSuffixed(s[0..]);
    }
  }

  /**
   * What the anchored grammar guarantees: after an optional leading `*`
   * only letters, digits and hyphens, and a letter or digit at the end
   * unless the label is `*` alone.
   */
  lemma WildcardLabelShape(s: string)
    requires IsIntendedWildcardLabel(s)
    ensures 1 <= |s| <= DNS1123LabelMaxLength
    ensures forall i :: 1 <= i < |s| ==> IsLabelChar(s[i])
    ensures s == "*" || IsAlphaNum(s[|s| - 1])
  {
    if s == "*" {
    } else if MatchesLabel(s) {
      LabelShape(s);
    } else if s[0] == '*' && MatchesLabel(s[1..]) {
      SuffixLabelShape(s, 1);
    } else {
      SuffixLabelShape(s, 2);
    }
  }

  /** A label after the first `k` characters fixes the characters from `k` on. */
  lemma SuffixLabelShape(s: string, k: nat)
    requires k <= |s| <= DNS1123LabelMaxLength && MatchesLabel(s[k..])
    ensures forall i :: k <= i < |s| ==> IsLabelChar(s[i])
    ensures IsAlphaNum(s[|s| - 1])
  {
    var t := s[k..];
    LabelShape(t);
    assert forall i :: k <= i < |s| ==> s[i] == t[i - k];
  }

  /** The written pattern accepts labels outside the grammar, such as "a_b" and "*!". */
  lemma WildcardPatternPrecedence()
    ensures IsWildcardDNS1123Label("a_b") && !IsIntendedWildcardLabel("a_b")
    ensures IsWildcardDNS1123Label("*!") && !IsIntendedWildcardLabel("*!")
  {
    WildcardAsWrittenShape("a_b");
    WildcardAsWrittenShape("*!");
    assert !MatchesLabel("a_b"[1..]);
  }

  /** checkDNS1123Preconditions: a domain is 1 to 255 characters long. */
  function CheckDNS1123Preconditions(name: string): (r: Error)
    ensures |r| <= 1
    ensures r == [] <==> 1 <= |name| <= DomainMaxLength
  {
    if |name| > DomainMaxLength then ["domain name too long (max 255)"]
    else if |name| == 0 then ["empty domain name not allowed"]
    else []
  }

  /** Every dot-separated segment of `domain` is a label. */
  predicate AllLabels(domain: string)
  {
    var parts := Split(domain, '.');
    forall j :: 0 <= j < |parts| ==> IsDNS1123Label(parts[j])
  }

  /** validateDNS1123Labels: stops at the first segment that is not a label. */
  method ValidateDNS1123Labels(domain: string) returns (r: Error)
    ensures |r| <= 1
    ensures r == [] <==> AllLabels(domain)
  {
    var labels := Split(domain, '.');
    for i := 0 to |labels|
      invariant forall j :: 0 <= j < i ==> IsDNS1123Label(labels[j])
    {
      if !IsDNS1123Label(labels[i]) {
        return ["domain name invalid (label invalid)"];
      }
    }
    return [];
  }

  /** A fully-qualified domain name: 1 to 255 characters, every segment a label. */
  predicate IsFQDN(s: string)
  {
    1 <= |s| <= DomainMaxLength && AllLabels(s)
  }

  /** ValidateFQDN: reports the length error and the first bad segment together. */
  method ValidateFQDN(fqdn: string) returns (r: Error)
    ensures |r| <= 2
    ensures r == [] <==> IsFQDN(fqdn)
  {
    var labelErrs := ValidateDNS1123Labels(fqdn);
    r := AppendError(CheckDNS1123Preconditions(fqdn), labelErrs);
  }

  /**
   * A wildcard domain: 1 to 255 characters, the first segment a wildcard
   * label as the pattern is written, every later one a label.
   */
  predicate IsWildcardDomain(s: string)
  {
    1 <= |s| <= DomainMaxLength && WildcardSegments(Split(s, '.'))
  }

  /** The segments of a wildcard domain: the first a wildcard label as written, every later one a label. */
  predicate WildcardSegments(parts: seq<string>)
    requires |parts| >= 1
  {
    IsWildcardDNS1123Label(parts[0]) && forall j :: 1 <= j < |parts| ==> IsDNS1123Label(parts[j])
  }

  /** The wildcard domain rule, read through strings.SplitN(domain, ".", 2). */
  lemma WildcardDomainByFirstSegment(domain: string)
    ensures IsWildcardDomain(domain) <==>
      && 1 <= |domain| <= DomainMaxLength
      && IsWildcardDNS1123Label(SplitFirst(domain, '.').0)
      && (SplitFirst(domain, '.').1.Some? ==> AllLabels(SplitFirst(domain, '.').1.value))
  {
    var sf := SplitFirst(domain, '.');
    SplitHead(domain, '.');
    var tail: seq<string> := if sf.1.None? then [] else Split(sf.1.value, '.');
    SegmentsOfHeadAndTail(sf.0, tail);
  }

  /** The wildcard rule on segments, read as a first segment and the rest. */
  lemma SegmentsOfHeadAndTail(first: string, tail: seq<string>)
    ensures WildcardSegments([first] + tail) <==>
      IsWildcardDNS1123Label(first) && forall j :: 0 <= j < |tail| ==> IsDNS1123Label(tail[j])
  {
    var parts := [first] + tail;
    assert parts[0] == first;
    assert forall j :: 1 <= j < |parts| ==> parts[j] == tail[j - 1];
    if forall j :: 1 <= j < |parts| ==> IsDNS1123Label(parts[j]) {
      forall j | 0 <= j < |tail| ensures IsDNS1123Label(tail[j]) {
        assert tail[j] == parts[j + 1];
      }
    }
  }

  /** ValidateWildcardDomain: only the first segment may carry a wildcard; at most one error. */
  method ValidateWildcardDomain(domain: string) returns (r: Error)
    ensures |r| <= 1
    ensures r == [] <==> IsWildcardDomain(domain)
  {
    WildcardDomainByFirstSegment(domain);
    r := CheckDNS1123Preconditions(domain);
    if r != [] {
      return;
    }
    var (first, rest) := SplitFirst(domain, '.');
    if !IsWildcardDNS1123Label(first) {
      r := ["domain name invalid (label invalid)"];
    } else if rest.Some? {
      r := ValidateDNS1123Labels(rest.value);
    }
  }

  /** Every fully-qualified domain name is also a valid wildcard domain. */
  lemma FQDNIsWildcardDomain(s: string)
    requires IsFQDN(s)
    ensures IsWildcardDomain(s)
  {
    WildcardLabelInclusions(Split(s, '.')[0]);
  }

  /** The wildcard domain rule accepts "*" alone. */
  lemma WildcardDomainStar()
    ensures IsWildcardDomain("*")
  {
    SplitNoSep("*", '.');
  }

  /** The wildcard domain the pattern's comment describes: the first segment an anchored wildcard label. */
  predicate IsIntendedWildcardDomain(s: string)
  {
    1 <= |s| <= DomainMaxLength && IntendedSegments(Split(s, '.'))
  }

  predicate IntendedSegments(parts: seq<string>)
    requires |parts| >= 1
  {
    IsIntendedWildcardLabel(parts[0]) && forall j :: 1 <= j < |parts| ==> IsDNS1123Label(parts[j])
  }

  /** Every domain of the intended grammar passes the wildcard domain check as written. */
  lemma IntendedWildcardDomainAccepted(s: string)
    requires IsIntendedWildcardDomain(s)
    ensures IsWildcardDomain(s)
  {
    WildcardLabelInclusions(Split(s, '.')[0]);
  }

  /**
   * The check as written accepts domains outside the intended grammar:
   * "a_b.com", whose first segment holds an underscore.
   */
  lemma WildcardDomainPrecedence()
    ensures IsWildcardDomain("a_b.com") && !IsIntendedWildcardDomain("a_b.com")
  {
    SplitOneSep("a_b", '.', "com");
    assert "a_b.com" == "a_b" + ['.'] + "com";
    WildcardPatternPrecedence();
    LabelShape("com");
  }

  /** Even the intended grammar accepts a wildcard glued to a label, as in "*foo.com". */
  lemma WildcardDomainGluedStar()
    ensures IsIntendedWildcardDomain("*foo.com") && IsWildcardDomain("*foo.com")
  {
    SplitOneSep("*foo", '.', "com");
    assert "*foo.com" == "*foo" + ['.'] + "com";
    GluedStarLabels();
    IntendedWildcardDomainAccepted("*foo.com");
  }

  /** Its first segment is an anchored wildcard label, its second a label. */
  lemma GluedStarLabels()
    ensures IsIntendedWildcardLabel("*foo") && IsDNS1123Label("com")
  {
    assert "*foo"[1..] == "foo";
    LabelShape("foo");
    LabelShape("com");
  }

  /** A fully-qualified name starts with a letter or digit. */
  lemma FQDNStartsAlphaNum(s: string)
    requires IsFQDN(s)
    ensures IsAlphaNum(s[0])
  {
    SplitHead(s, '.');
    var (h, t) := SplitFirst(s, '.');
    assert IsDNS1123Label(Split(s, '.')[0]);
    assert |h| >= 1 && IsAlphaNum(h[0]);
    assert s[0] == h[0];
  }

  /** The domains an egress rule accepts: `*`, a name, or `*`, `*.` or `*-` followed by a name. */
  predicate IsEgressDomain(d: string)
  {
    || d == "*"
    || IsFQDN(d)
    || (|d| >= 1 && d[0] == '*' && IsFQDN(d[1..]))
    || (|d| >= 2 && d[0] == '*' && d[1] == '.' && IsFQDN(d[2..]))
    || (|d| >= 2 && d[0] == '*' && d[1] == '-' && IsFQDN(d[2..]))
  }

  /** ValidateEgressRuleDomain: strips a leading `*`, `*.` or `*-`, then checks what is left as a name. */
  method ValidateEgressRuleDomain(domain: string) returns (r: Error)
    ensures |r| <= 2
    ensures r == [] <==> IsEgressDomain(domain)
  {
    if |domain| < 1 {
      return ["domain must not be empty string"];
    }
    var d := domain;
    if d[0] == '*' {
      d := d[1..];
      if |d| == 0 {
        return [];
      }
      if d[0] == '.' || d[0] == '-' {
        d := d[1..];
        if IsFQDN(domain[1..]) {
          FQDNStartsAlphaNum(domain[1..]);
        }
      } else if |domain| >= 2 && IsFQDN(domain[2..]) {
        assert domain[1..] == [domain[1]] + domain[2..];
      }
    } else if IsFQDN(domain[1..]) || (|domain| >= 2 && IsFQDN(domain[2..])) {
      assert !IsFQDN(domain) ==> domain[0] != '*';
    }
    if IsFQDN(domain) {
      FQDNStartsAlphaNum(domain);
    }
    r := ValidateFQDN(d);
  }

  predicate IsDigit(c: char)
  {
    '0' <= c <= '9'
  }

  predicate AllDigits(s: string)
  {
    forall i :: 0 <= i < |s| ==> IsDigit(s[i])
  }

  /** The number a string of decimal digits denotes. */
  function DecimalValue(s: string): nat
    requires AllDigits(s)
  {
    if |s| == 0 then 0 else 10 * DecimalValue(s[..|s| - 1]) + (s[|s| - 1] as int - '0' as int)
  }

  /** One field of a dotted quad: decimal digits denoting at most 255. */
  predicate IsOctet(p: string)
  {
    |p| >= 1 && AllDigits(p) && DecimalValue(p) <= 255
  }

  /** An IPv4 address in dotted-quad notation. */
  predicate IsIPv4(s: string)
  {
    var parts := Split(s, '.');
    |parts| == 4 && forall j :: 0 <= j < 4 ==> IsOctet(parts[j])
  }

  /** An IPv4 CIDR block `a.b.c.d/n` with 0 <= n <= 32; the address is what precedes the first `/`. */
  predicate IsCIDR(s: string)
  {
    var (addr, mask) := SplitFirst(s, '/');
    && mask.Some?
    && IsIPv4(addr)
    && |mask.value| >= 1 && AllDigits(mask.value) && DecimalValue(mask.value) <= 32
  }

  /** ValidateIPv4Address. */
  function ValidateIPv4Address(addr: string): (r: Error)
    ensures |r| <= 1
    ensures r == [] <==> IsIPv4(addr)
  {
    if IsIPv4(addr) then [] else ["not a valid IPv4 address"]
  }

  /** validateCIDR. */
  function ValidateCIDR(cidr: string): (r: Error)
    ensures |r| <= 1
    ensures r == [] <==> IsCIDR(cidr)
  {
    if IsCIDR(cidr) then [] else ["not a valid CIDR block"]
  }

  /** A character absent from the string is counted zero times; a string cut in two counts both halves. */
  lemma {:induction false} OccurrencesConcat(a: string, b: string, c: char)
    ensures Occurrences(a + b, c) == Occurrences(a, c) + Occurrences(b, c)
    decreases |a|
  {
    if |a| > 0 {
      assert (a + b)[1..] == a[1..] + b;
      OccurrencesConcat(a[1..], b, c);
    } else {
      assert a + b == b;
    }
  }

  lemma {:induction false} OccurrencesAbsent(s: string, c: char)
    requires c !in s
    ensures Occurrences(s, c) == 0
    decreases |s|
  {
    if |s| > 0 {
      OccurrencesAbsent(s[1..], c);
    }
  }

  /** A character other than the separator that occurs in a string occurs in one of its pieces. */
  lemma {:induction false} SplitKeepsChars(s: string, sep: char, c: char)
    requires c != sep && c in s
    ensures exists j :: 0 <= j < |Split(s, sep)| && c in Split(s, sep)[j]
    decreases |s|
  {
    var parts := Split(s, sep);
    if s[0] == c {
      assert c in parts[0];
    } else {
      SplitKeepsChars(s[1..], sep, c);
      var rest := Split(s[1..], sep);
      var j :| 0 <= j < |rest| && c in rest[j];
      if s[0] == sep {
        assert parts[j + 1] == rest[j];
      } else if j == 0 {
        assert c in parts[0];
      } else {
        assert parts[j] == rest[j];
      }
    }
  }

  /** A dotted quad contains no slash. */
  lemma IPv4NoSlash(s: string)
    requires IsIPv4(s)
    ensures Occurrences(s, '/') == 0
  {
    if '/' in s {
      SplitKeepsChars(s, '.', '/');
    }
    OccurrencesAbsent(s, '/');
  }

  /** A CIDR block contains exactly one slash. */
  lemma CIDROneSlash(s: string)
    requires IsCIDR(s)
    ensures Occurrences(s, '/') == 1
  {
    var (addr, mask) := SplitFirst(s, '/');
    IPv4NoSlash(addr);
    OccurrencesAbsent(mask.value, '/');
    OccurrencesConcat(addr + ['/'], mask.value, '/');
    OccurrencesConcat(addr, ['/'], '/');
  }

  lemma SubnetSlashes(s: string)
    ensures IsIPv4(s) ==> Occurrences(s, '/') == 0
    ensures IsCIDR(s) ==> Occurrences(s, '/') == 1
  {
    if IsIPv4(s) {
      IPv4NoSlash(s);
    }
    if IsCIDR(s) {
      CIDROneSlash(s);
    }
  }

  /** An IPv4 address or an IPv4 CIDR block. */
  predicate IsIPv4Subnet(s: string)
  {
    IsIPv4(s) || IsCIDR(s)
  }

  /** ValidateIPv4Subnet: a string with exactly one `/` must be a CIDR block, any other an address. */
  function ValidateIPv4Subnet(subnet: string): (r: Error)
    ensures |r| <= 1
    ensures r == [] <==> IsIPv4Subnet(subnet)
  {
    SubnetSlashes(subnet);
    if Occurrences(subnet, '/') == 1 then ValidateCIDR(subnet) else ValidateIPv4Address(subnet)
  }

  /** ValidateUnixAddress: a non-empty absolute path (forward-slash convention). */
  function ValidateUnixAddress(addr: string): (r: Error)
    ensures |r| <= 1
    ensures r == [] <==> |addr| >= 1 && addr[0] == '/'
  {
    if |addr| == 0 then ["unix address must not be empty"]
    else if addr[0] != '/' then ["not an absolute path"]
    else []
  }

  /**
   * validateHost: a host is a wildcard domain or an IPv4 subnet; when it is
   * neither, both underlying errors are reported.
   */
  method ValidateHost(host: string) returns (r: Error)
    ensures |r| <= 2
    ensures r == [] <==> IsWildcardDomain(host) || IsIPv4Subnet(host)
    ensures r != [] ==> |r| == 2
  {
    var err := ValidateWildcardDomain(host);
    if err != [] {
      var err2 := ValidateIPv4Subnet(host);
      if err2 != [] {
        return AppendError(err, err2);
      }
    }
    return [];
  }
}
