/** The Athenz domain grammar of the service certificate, and the names built from an accepted domain. */
module DomainName {
  import opened Text

  datatype CharClass = Head | Tail | Dot

  predicate IsHead(c: char) {
    c == '_' || 'a' <= c <= 'z' || 'A' <= c <= 'Z' || '0' <= c <= '9'
  }

  predicate In(c: char, class_: CharClass) {
    match class_
    case Head => IsHead(c)
    case Tail => c == '-' || IsHead(c)
    case Dot => c == '.'
  }

  datatype Regex = One(class_: CharClass) | Cat(first: Regex, second: Regex) | Star(body: Regex)

  /** The regular expression matches the whole text. */
  ghost predicate Matches(r: Regex, s: string)
    decreases |s|, r
  {
    match r
    case One(class_) => |s| == 1 && In(s[0], class_)
    case Cat(first, second) => exists i :: 0 <= i <= |s| && Matches(first, s[..i]) && Matches(second, s[i..])
    case Star(body) => s == "" || exists i :: 0 < i <= |s| && Matches(body, s[..i]) && Matches(r, s[i..])
  }

  const WORD := Cat(One(Head), Star(One(Tail)))
  const WORD_DOT := Cat(WORD, One(Dot))
  const DOMAIN := Cat(Star(WORD_DOT), WORD)

  /** The check of the configured domain. */
  ghost predicate IsValidDomain(domain: string) {
    Matches(DOMAIN, domain)
  }

  /** Not empty, of allowed characters only, and not starting with a hyphen. */
  predicate IsWord(s: string) {
    s != "" && s[0] != '-' && forall i :: 0 <= i < |s| ==> In(s[i], Tail)
  }

  predicate AllWords(parts: seq<string>) {
    forall i :: 0 <= i < |parts| ==> IsWord(parts[i])
  }

  lemma {:induction false} StarMatches(s: string)
    ensures Matches(Star(One(Tail)), s) <==> forall i :: 0 <= i < |s| ==> In(s[i], Tail)
    decreases |s|
  {
    if s == "" {
    } else {
      StarMatches(s[1..]);
      assert s[..1] == [s[0]];
      if In(s[0], Tail) && Matches(Star(One(Tail)), s[1..]) {
        assert Matches(One(Tail), s[..1]);
      }
      if i :| 0 < i <= |s| && Matches(One(Tail), s[..i]) && Matches(Star(One(Tail)), s[i..]) {
        assert i == 1;
      }
    }
  }

  lemma WordMatches(s: string)
    ensures Matches(WORD, s) <==> IsWord(s)
  {
    if s != "" {
      StarMatches(s[1..]);
      assert s[..1] == [s[0]];
      if IsWord(s) {
        assert Matches(One(Head), s[..1]) && Matches(Star(One(Tail)), s[1..]);
      }
    }
    if i :| 0 <= i <= |s| && Matches(One(Head), s[..i]) && Matches(Star(One(Tail)), s[i..]) {
      assert i == 1;
    }
  }

  lemma WordDotMatches(s: string)
    ensures Matches(WORD_DOT, s) <==> s != "" && s[|s| - 1] == '.' && IsWord(s[..|s| - 1])
  {
    if s != "" {
      var n := |s| - 1;
      WordMatches(s[..n]);
      assert s[n..] == [s[n]];
      if s[n] == '.' && IsWord(s[..n]) {
        assert Matches(WORD, s[..n]) && Matches(One(Dot), s[n..]);
      }
    }
    if i :| 0 <= i <= |s| && Matches(WORD, s[..i]) && Matches(One(Dot), s[i..]) {
      assert i == |s| - 1;
      WordMatches(s[..i]);
    }
  }

  lemma WordHasNoDot(s: string)
    requires IsWord(s)
    ensures '.' !in s && Split(s, '.') == [s]
  {
    assert !In('.', Tail);
    SplitWhole(s, '.');
  }

  lemma {:induction false} WordsOfMatch(t: string, w: string)
    requires Matches(Star(WORD_DOT), t) && IsWord(w)
    ensures AllWords(Split(t + w, '.'))
    decreases |t|
  {
    if t == "" {
      assert t + w == w;
      WordHasNoDot(w);
    } else {
      var i :| 0 < i <= |t| && Matches(WORD_DOT, t[..i]) && Matches(Star(WORD_DOT), t[i..]);
      WordDotMatches(t[..i]);
      var x := t[..i][..i - 1];
      assert t + w == x + ['.'] + (t[i..] + w);
      SplitAround(x, '.', t[i..] + w);
      WordHasNoDot(x);
      WordsOfMatch(t[i..], w);
    }
  }

  lemma {:induction false} MatchOfWords(s: string) returns (i: nat)
    requires AllWords(Split(s, '.'))
    ensures i <= |s| && Matches(Star(WORD_DOT), s[..i]) && IsWord(s[i..])
    decreases |s|
  {
    if '.' in s {
      var k := FirstWord(s);
      var j := MatchOfWords(s[k + 1..]);
      i := k + 1 + j;
      StarStep(s[..i], k + 1, s[k + 1..][..j]);
      assert s[i..] == s[k + 1..][j..];
    } else {
      SplitWhole(s, '.');
      i := 0;
      assert s[0..] == s && Split(s, '.')[0] == s;
    }
  }

  lemma FirstWord(s: string) returns (k: nat)
    requires '.' in s && AllWords(Split(s, '.'))
    ensures k < |s| && s[k] == '.' && IsWord(s[..k]) && AllWords(Split(s[k + 1..], '.'))
  {
    k := IndexOf(s, '.');
    var x, rest := s[..k], s[k + 1..];
    assert s == x + ['.'] + rest;
    SplitAround(x, '.', rest);
    SplitWhole(x, '.');
    assert Split(s, '.')[0] == x && Split(s, '.')[1..] == Split(rest, '.');
  }

  lemma StarStep(t: string, k: nat, rest: string)
    requires 0 < k <= |t| && t[k..] == rest && Matches(Star(WORD_DOT), rest)
    requires t[k - 1] == '.' && IsWord(t[..k - 1])
    ensures Matches(Star(WORD_DOT), t)
  {
    assert t[..k][..k - 1] == t[..k - 1];
    WordDotMatches(t[..k]);
  }

  /** The expression accepts exactly the texts whose dot-separated parts are words. */
  lemma ValidDomainExactly(domain: string)
    ensures IsValidDomain(domain) <==> AllWords(Split(domain, '.'))
  {
    if IsValidDomain(domain) {
      var i :| 0 <= i <= |domain| && Matches(Star(WORD_DOT), domain[..i]) && Matches(WORD, domain[i..]);
      WordMatches(domain[i..]);
      WordsOfMatch(domain[..i], domain[i..]);
      assert domain == domain[..i] + domain[i..];
    }
    if AllWords(Split(domain, '.')) {
      var i := MatchOfWords(domain);
      WordMatches(domain[i..]);
    }
  }

  /** A part of an accepted domain, by its characters: letters, digits, underscores and, not in front, hyphens. */
  predicate IsPart(s: string) {
    && s != ""
    && (forall i :: 0 <= i < |s| ==>
          'a' <= s[i] <= 'z' || 'A' <= s[i] <= 'Z' || '0' <= s[i] <= '9' || s[i] == '_' || (i > 0 && s[i] == '-'))
  }

  /** The same without the character classes of the expression. */
  lemma ValidDomainCharacters(domain: string)
    ensures IsValidDomain(domain) <==> forall i :: 0 <= i < |Split(domain, '.')| ==> IsPart(Split(domain, '.')[i])
  {
    ValidDomainExactly(domain);
    forall i | 0 <= i < |Split(domain, '.')| ensures IsWord(Split(domain, '.')[i]) <==> IsPart(Split(domain, '.')[i]) {
      WordIsPart(Split(domain, '.')[i]);
    }
  }

  lemma WordIsPart(s: string)
    ensures IsWord(s) <==> IsPart(s)
  {
  }

  /** `strings.Replace(domain, ".", "-", -1)`. */
  function Hyphenate(domain: string): (hyphenated: string)
    ensures |hyphenated| == |domain|
  {
    seq(|domain|, i requires 0 <= i < |domain| => if domain[i] == '.' then '-' else domain[i])
  }

  function CommonName(domain: string, service: string): string {
    domain + "." + service
  }

  function HostName(domain: string, service: string, suffix: string): string {
    service + "." + Hyphenate(domain) + "." + suffix
  }

  /** The domain comes first in the common name, the service after a dot. */
  lemma CommonNameParts(domain: string, service: string)
    ensures var name, n := CommonName(domain, service), |domain|;
      && |name| == n + 1 + |service|
      && (forall i :: 0 <= i < n ==> name[i] == domain[i])
      && name[n] == '.'
      && (forall i :: 0 <= i < |service| ==> name[n + 1 + i] == service[i])
  {
  }

  /** The service comes first in the host name, then the domain with hyphens for dots, then the suffix. */
  lemma HostNameParts(domain: string, service: string, suffix: string)
    ensures var name, m, n := HostName(domain, service, suffix), |service|, |domain|;
      && |name| == m + 1 + n + 1 + |suffix|
      && (forall i :: 0 <= i < m ==> name[i] == service[i])
      && name[m] == '.'
      && (forall i :: 0 <= i < n ==> name[m + 1 + i] == if domain[i] == '.' then '-' else domain[i])
      && name[m + 1 + n] == '.'
      && (forall i :: 0 <= i < |suffix| ==> name[m + n + 2 + i] == suffix[i])
  {
  }

  lemma {:induction false} CharactersOfWords(s: string)
    requires AllWords(Split(s, '.'))
    ensures s != "" && s[0] != '-' && s[0] != '.'
    ensures forall i :: 0 <= i < |s| ==> In(s[i], Tail) || s[i] == '.'
    decreases |s|
  {
    if '.' in s {
      var k := IndexOf(s, '.');
      var x, rest := s[..k], s[k + 1..];
      assert s == x + ['.'] + rest;
      SplitAround(x, '.', rest);
      SplitWhole(x, '.');
      assert Split(s, '.')[0] == x && Split(s, '.')[1..] == Split(rest, '.');
      CharactersOfWords(rest);
      assert IsWord(x);
    } else {
      SplitWhole(s, '.');
      assert IsWord(Split(s, '.')[0]);
    }
  }

  /** The hyphenated form of an accepted domain is one label, itself an accepted domain. */
  lemma HyphenatedIsOneLabel(domain: string)
    requires IsValidDomain(domain)
    ensures IsValidDomain(Hyphenate(domain)) && Split(Hyphenate(domain), '.') == [Hyphenate(domain)]
  {
    ValidDomainExactly(domain);
    CharactersOfWords(domain);
    var name := Hyphenate(domain);
    assert IsWord(name);
    WordHasNoDot(name);
    ValidDomainExactly(name);
  }

  /** Two domains get the same label exactly when they differ at most in where they have dots for hyphens. */
  lemma HyphenateCollides(domain: string, other: string)
    ensures Hyphenate(domain) == Hyphenate(other) <==>
            |domain| == |other| &&
            forall i :: 0 <= i < |domain| ==> domain[i] == other[i] || (domain[i] in ".-" && other[i] in ".-")
  {
    var name, name' := Hyphenate(domain), Hyphenate(other);
    if name == name' {
      forall i | 0 <= i < |domain| ensures domain[i] == other[i] || (domain[i] in ".-" && other[i] in ".-") {
        assert name[i] == name'[i];
      }
    }
  }

  /** The common name determines domain and service, as long as services have no dot. */
  lemma CommonNameDetermines(domain: string, service: string, domain': string, service': string)
    requires '.' !in service && '.' !in service'
    ensures CommonName(domain, service) == CommonName(domain', service') <==> domain == domain' && service == service'
  {
    var name, name' := CommonName(domain, service), CommonName(domain', service');
    if name == name' {
      assert name[|domain|] == '.' && name'[|domain'|] == '.';
      assert forall k :: |domain| < k < |name| ==> name[k] == service[k - |domain| - 1];
      assert forall k :: |domain'| < k < |name'| ==> name'[k] == service'[k - |domain'| - 1];
      assert domain == name[..|domain|] && domain' == name'[..|domain'|];
      assert service == name[|domain| + 1..] && service' == name'[|domain'| + 1..];
    }
  }

  /** The host name determines service, hyphenated domain and suffix: two accepted domains that collide share hosts. */
  lemma HostNameDetermines(domain: string, service: string, suffix: string, domain': string, service': string,
                           suffix': string)
    requires '.' !in service && '.' !in service' && IsValidDomain(domain) && IsValidDomain(domain')
    ensures HostName(domain, service, suffix) == HostName(domain', service', suffix')
            <==> service == service' && Hyphenate(domain) == Hyphenate(domain') && suffix == suffix'
  {
    HyphenateHasNoDot(domain);
    HyphenateHasNoDot(domain');
    FirstDots(service, Hyphenate(domain), suffix, service', Hyphenate(domain'), suffix');
  }

  lemma HyphenateHasNoDot(domain: string)
    requires IsValidDomain(domain)
    ensures '.' !in Hyphenate(domain)
  {
    HyphenatedIsOneLabel(domain);
    JoinOfSplit(Hyphenate(domain), '.');
    assert '.' !in Split(Hyphenate(domain), '.')[0];
  }

  lemma FirstDots(x: string, y: string, z: string, x': string, y': string, z': string)
    requires '.' !in x && '.' !in x' && '.' !in y && '.' !in y'
    ensures x + "." + y + "." + z == x' + "." + y' + "." + z' <==> x == x' && y == y' && z == z'
  {
    if x + "." + y + "." + z == x' + "." + y' + "." + z' {
      var rest, rest' := y + "." + z, y' + "." + z';
      assert x + "." + rest == x + "." + y + "." + z == x' + "." + rest';
      FirstDot(x, rest, x', rest');
      FirstDot(y, z, y', z');
    }
  }

  lemma FirstDot(head: string, tail: string, head': string, tail': string)
    requires '.' !in head && '.' !in head' && head + "." + tail == head' + "." + tail'
    ensures head == head' && tail == tail'
  {
    var s, s' := head + "." + tail, head' + "." + tail';
    IndexOfFirst(head, '.', tail);
    IndexOfFirst(head', '.', tail');
    assert head == s[..|head|] && head' == s'[..|head'|];
    assert tail == s[|head| + 1..] && tail' == s'[|head'| + 1..];
  }
}
