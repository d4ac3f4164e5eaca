/**
 * The small validators the resource validators are built from: numeric
 * ranges (ports, percentages, HTTP status codes), lower-case header names,
 * string matches, HTTP methods, the `[-A-Za-z0-9_./]*` tag grammar of
 * label maps, subset and port names, port selectors and protocols.
 */
module Primitives {
  import opened Wrappers
  import opened Errors
  import opened Domains
  import opened Messages

  const PortMin: int := 1
  const PortMax: int := 65535
  const PercentMax: int := 100
  const HTTPStatusMax: int := 600

  const InvalidPort := "port number must be in the range 1..65535"
  const InvalidPercent := "percentage is not in range 0..100"
  const InvalidHTTPStatus := "HTTP status is not in range 0-600"
  const EmptyHeaderName := "header name cannot be empty"
  const HeaderNotLowerCase := "must be in lower case"
  const UnrecognizedStringMatch := "unrecognized string match"
  const UnsupportedMethod := "is not a supported HTTP method"
  const InvalidTagKey := "invalid tag key"
  const InvalidTagValue := "invalid tag value"
  const EmptySubsetName := "subset name cannot be empty"
  const InvalidSubsetName := "subnet name is invalid"
  const InvalidPortName := "invalid port name"
  const UnsupportedProtocol := "unsupported protocol"

  // ------------------------------------------------------------ ranges

  predicate IsValidPort(port: int)
  {
    PortMin <= port <= PortMax
  }

  /** ValidatePort: one error exactly when the port is outside 1..65535. */
  function ValidatePort(port: int): (r: Error)
    ensures |r| <= 1
    ensures r == [] <==> 1 <= port <= 65535
  {
    if IsValidPort(port) then [] else [InvalidPort]
  }

  /** ValidatePercent: one error exactly when the int32 percentage is outside 0..100. */
  function ValidatePercent(val: int): (r: Error)
    ensures |r| <= 1
    ensures r == [] <==> 0 <= val <= 100
  {
    if val < 0 || val > PercentMax then [InvalidPercent] else []
  }

  /** ValidateFloatPercent: the same range for a float32 percentage, read as an exact real. */
  function ValidateFloatPercent(val: real): (r: Error)
    ensures |r| <= 1
    ensures r == [] <==> 0.0 <= val <= 100.0
  {
    if val < 0.0 || val > 100.0 then [InvalidPercent] else []
  }

  /** validateHTTPStatus: one error exactly when the status is outside 0..600. */
  function ValidateHTTPStatus(status: int): (r: Error)
    ensures |r| <= 1
    ensures r == [] <==> 0 <= status <= 600
  {
    if status < 0 || status > HTTPStatusMax then [InvalidHTTPStatus] else []
  }

  // ------------------------------------------------------ header names

  /** strings.ToLower on one character, restricted to ASCII. */
  function LowerChar(c: char): (d: char)
    ensures 'A' <= c <= 'Z' ==> 'a' <= d <= 'z'
    ensures !('A' <= c <= 'Z') ==> d == c
  {
    if 'A' <= c <= 'Z' then (c as int - 'A' as int + 'a' as int) as char else c
  }

  /** strings.ToLower, restricted to ASCII. */
  function Lower(s: string): (t: string)
    ensures |t| == |s|
  {
    if |s| == 0 then [] else Lower(s[..|s| - 1]) + [LowerChar(s[|s| - 1])]
  }

  predicate HasUpper(s: string)
  {
    exists i :: 0 <= i < |s| && 'A' <= s[i] <= 'Z'
  }

  /** Lower-casing changes character i exactly where character i is an upper-case letter. */
  lemma {:induction false} LowerAt(s: string, i: int)
    requires 0 <= i < |s|
    ensures Lower(s)[i] == LowerChar(s[i])
    decreases |s|
  {
    if i < |s| - 1 {
      LowerAt(s[..|s| - 1], i);
    }
  }

  /** A string is its own lower-case form exactly when it holds no upper-case letter. */
  lemma LowerFixed(s: string)
    ensures Lower(s) == s <==> !HasUpper(s)
  {
    if !HasUpper(s) {
      forall i | 0 <= i < |s| ensures Lower(s)[i] == s[i] {
        LowerAt(s, i);
      }
    } else {
      var i :| 0 <= i < |s| && 'A' <= s[i] <= 'Z';
      LowerAt(s, i);
    }
  }

  /** Lower-casing is idempotent. */
  lemma LowerIdempotent(s: string)
    ensures Lower(Lower(s)) == Lower(s)
  {
    forall i | 0 <= i < |s| ensures !('A' <= Lower(s)[i] <= 'Z') {
      LowerAt(s, i);
    }
    LowerFixed(Lower(s));
  }

  /** ValidateHTTPHeaderName: a header name must be non-empty and equal to its lower-case form. */
  function ValidateHTTPHeaderName(name: string): (r: Error)
    ensures |r| <= 1
    ensures r == [] <==> name != "" && !HasUpper(name)
    ensures name == "" ==> r == [EmptyHeaderName]
  {
    LowerFixed(name);
    if name == "" then [EmptyHeaderName]
    else if Lower(name) != name then [HeaderNotLowerCase]
    else []
  }

  // ------------------------------------------------ matches and methods

  /** ValidateStringMatch: one of exact, prefix or regex must be set. */
  function ValidateStringMatch(m: StringMatch): (r: Error)
    ensures |r| <= 1
    ensures r == [] <==> (m.ExactMatch? || m.PrefixMatch? || m.RegexMatch?)
  {
    match m
    case ExactMatch(_) => []
    case PrefixMatch(_) => []
    case RegexMatch(_) => []
    case MatchUnset => [UnrecognizedStringMatch]
  }

  /** The methods net/http names. */
  const SupportedMethods: set<string> :=
    {"GET", "HEAD", "POST", "PUT", "PATCH", "DELETE", "CONNECT", "OPTIONS", "TRACE"}

  /** validateHTTPMethod: only the nine upper-case methods of net/http are accepted. */
  function ValidateHTTPMethod(httpMethod: string): (r: Error)
    ensures |r| <= 1
    ensures r == [] <==> httpMethod in SupportedMethods
  {
    if httpMethod in SupportedMethods then [] else [UnsupportedMethod]
  }

  // ------------------------------------------------------------ tags

  /** A character of the tag grammar `[-A-Za-z0-9_./]`. */
  predicate IsTagChar(c: char)
  {
    IsAlphaNum(c) || c == '-' || c == '_' || c == '.' || c == '/'
  }

  /** The whole string matches `[-A-Za-z0-9_./]*`. */
  predicate IsTag(s: string)
  {
    forall i :: 0 <= i < |s| ==> IsTagChar(s[i])
  }

  /** The keys among `done` whose key breaks the tag grammar. */
  function BadTagKeysIn(labels: map<string, string>, done: set<string>): set<string>
  {
    set k | k in done && k in labels && !IsTag(k)
  }

  /** The keys among `done` whose value breaks the tag grammar. */
  function BadTagValuesIn(labels: map<string, string>, done: set<string>): set<string>
  {
    set k | k in done && k in labels && !IsTag(labels[k])
  }

  predicate ValidTags(labels: map<string, string>)
  {
    forall k :: k in labels ==> IsTag(k) && IsTag(labels[k])
  }

  /** The per-key errors of Labels.Validate: the key check, then the value check. */
  function TagErrors(k: string, v: string): (r: Error)
    ensures Count(r, InvalidTagKey) == (if IsTag(k) then 0 else 1)
    ensures Count(r, InvalidTagValue) == (if IsTag(v) then 0 else 1)
    ensures |r| == (if IsTag(k) then 0 else 1) + (if IsTag(v) then 0 else 1)
  {
    var e1: Error := if IsTag(k) then [] else [InvalidTagKey];
    var e2: Error := if IsTag(v) then [] else [InvalidTagValue];
    assert [InvalidTagKey][..0] == [];
    assert [InvalidTagValue][..0] == [];
    CountConcat(e1, e2, InvalidTagKey);
    CountConcat(e1, e2, InvalidTagValue);
    e1 + e2
  }

  /** Visiting one more key adds it to the bad-key and bad-value sets exactly when it is bad. */
  lemma BadTagsStep(labels: map<string, string>, done: set<string>, k: string)
    requires k in labels && k !in done
    ensures BadTagKeysIn(labels, done + {k}) ==
      BadTagKeysIn(labels, done) + (if IsTag(k) then {} else {k})
    ensures BadTagValuesIn(labels, done + {k}) ==
      BadTagValuesIn(labels, done) + (if IsTag(labels[k]) then {} else {k})
    ensures k !in BadTagKeysIn(labels, done) && k !in BadTagValuesIn(labels, done)
  {
  }

  /**
   * Labels.Validate: one "invalid tag key" error per key outside the tag
   * grammar and one "invalid tag value" error per value outside it, in
   * map-iteration order; nil exactly when every key and value is a tag.
   */
  method ValidateLabels(labels: map<string, string>) returns (r: Error)
    ensures Count(r, InvalidTagKey) == |BadTagKeysIn(labels, labels.Keys)|
    ensures Count(r, InvalidTagValue) == |BadTagValuesIn(labels, labels.Keys)|
    ensures |r| == |BadTagKeysIn(labels, labels.Keys)| + |BadTagValuesIn(labels, labels.Keys)|
    ensures r == [] <==> ValidTags(labels)
  {
    r := [];
    var done: set<string> := {};
    while done != labels.Keys
      invariant done <= labels.Keys
      invariant Count(r, InvalidTagKey) == |BadTagKeysIn(labels, done)|
      invariant Count(r, InvalidTagValue) == |BadTagValuesIn(labels, done)|
      invariant |r| == |BadTagKeysIn(labels, done)| + |BadTagValuesIn(labels, done)|
      decreases |labels.Keys - done|
    {
      var k :| k in labels.Keys - done;
      var e := TagErrors(k, labels[k]);
      BadTagsStep(labels, done, k);
      CountConcat(r, e, InvalidTagKey);
      CountConcat(r, e, InvalidTagValue);
      r := AppendError(r, e);
      done := done + {k};
    }
    if r == [] {
      forall k | k in labels ensures IsTag(k) && IsTag(labels[k]) {
        assert k !in BadTagKeysIn(labels, labels.Keys);
        assert k !in BadTagValuesIn(labels, labels.Keys);
      }
    }
  }

  // ------------------------------------------- subset and port names

  /** validateSubsetName: a non-empty DNS-1123 label; the empty name has its own message. */
  function ValidateSubsetName(name: string): (r: Error)
    ensures |r| <= 1
    ensures r == [] <==> IsDNS1123Label(name)
    ensures name == "" ==> r == [EmptySubsetName]
  {
    if |name| == 0 then [EmptySubsetName]
    else if !IsDNS1123Label(name) then [InvalidSubsetName]
    else []
  }

  /** validatePortName: the port name must be a DNS-1123 label. */
  function ValidatePortName(name: string): (r: Error)
    ensures |r| <= 1
    ensures r == [] <==> IsDNS1123Label(name)
  {
    if !IsDNS1123Label(name) then [InvalidPortName] else []
  }

  /**
   * validatePortSelector (and validateAuthNPortSelector, which has the same
   * body): a nil selector is fine; a selector with neither a name nor a
   * non-zero number gets both the name and the number error; a non-zero
   * number must be a valid port; otherwise the name must be a valid label.
   */
  function ValidatePortSelector(selector: Option<PortSelector>): (r: Error)
    ensures selector.None? ==> r == []
    ensures selector.Some? && selector.value.GetName() == "" && selector.value.GetNumber() == 0 ==>
      r == [EmptySubsetName, InvalidPort]
    ensures r == [] <==>
      selector.None? ||
      (selector.value.GetNumber() != 0 && IsValidPort(selector.value.GetNumber())) ||
      (selector.value.GetNumber() == 0 && IsDNS1123Label(selector.value.GetName()))
  {
    match selector
    case None => []
    case Some(s) =>
      var name := s.GetName();
      var number := s.GetNumber();
      if name == "" && number == 0 then AppendError(ValidateSubsetName(name), ValidatePort(number))
      else if number != 0 then ValidatePort(number)
      else ValidateSubsetName(name)
  }

  /** A selector by name is never checked as a port, and one by number never as a name. */
  lemma PortSelectorCases(s: PortSelector)
    ensures s.ByNumber? && s.number != 0 ==> ValidatePortSelector(Some(s)) == ValidatePort(s.number)
    ensures s.ByName? && s.name != "" ==> ValidatePortSelector(Some(s)) == ValidateSubsetName(s.name)
    ensures s.SelectorUnset? ==> |ValidatePortSelector(Some(s))| == 2
  {
  }

  // ------------------------------------------------------- protocols

  /** validateProtocol: the protocol must be one ParseProtocol recognises. */
  function ValidateProtocol(env: Env, protocol: string): (r: Error)
    ensures |r| <= 1
    ensures r == [] <==> protocol in env.knownProtocols
  {
    if protocol !in env.knownProtocols then [UnsupportedProtocol] else []
  }
}
