/**
 * The sign-in allowlist: parsing the comma-separated e-mail and domain
 * lists and the ordered, fail-closed allow/deny decision.
 */
module Allowlist {
  import opened Wrappers
  import opened Text

  datatype AllowlistConfig = AllowlistConfig(domains: seq<string>, emails: seq<string>, isEmpty: bool)

  datatype Reason = DomainMatch | EmailMatch | NoEmail | DomainNotAllowed | AllowlistEmpty

  datatype AuthorizationResult = AuthorizationResult(allowed: bool, reason: Reason)

  // ---------------------------------------------------------------------
  // Parsing
  // ---------------------------------------------------------------------

  /** One list entry: trimmed, then lower-cased. */
  function NormalizeEntry(item: string): (r: string)
    ensures IsTrimmed(r) && Lower(r) == r
  {
    LowerKeepsTrimmed(Trim(item));
    LowerIdempotent(Trim(item));
    Lower(Trim(item))
  }

  /** `.map(item => item.trim().toLowerCase())`. */
  function NormalizeAll(items: seq<string>): (r: seq<string>)
    ensures |r| == |items|
    ensures forall i :: 0 <= i < |items| ==> r[i] == NormalizeEntry(items[i])
  {
    if items == [] then [] else [NormalizeEntry(items[0])] + NormalizeAll(items[1..])
  }

  /** `.filter(Boolean)` on strings: drops the empty ones, keeping the order. */
  function NonEmpty(items: seq<string>): (r: seq<string>)
    ensures |r| <= |items|
    ensures forall x :: x in r <==> x in items && x != ""
  {
    if items == [] then []
    else
      var rest := NonEmpty(items[1..]);
      assert forall x :: x in items <==> x == items[0] || x in items[1..];
      if items[0] == "" then rest else [items[0]] + rest
  }

  /** The filter keeps the order: filtering a concatenation concatenates the filtered halves. */
  lemma {:induction false} NonEmptyAppend(a: seq<string>, b: seq<string>)
    ensures NonEmpty(a + b) == NonEmpty(a) + NonEmpty(b)
    decreases |a|
  {
    if a != [] {
      assert (a + b)[1..] == a[1..] + b;
      NonEmptyAppend(a[1..], b);
    } else {
      assert a + b == b;
    }
  }

  /**
   * `parseEnvList`: an unset or empty variable gives no entries; otherwise
   * the comma-separated entries, trimmed and lower-cased, without the empty ones.
   */
  function ParseEnvList(value: Option<string>): (r: seq<string>)
    ensures !Truthy(value) ==> r == []
    ensures forall x :: x in r ==> x != "" && IsTrimmed(x) && Lower(x) == x && ',' !in x
    ensures Truthy(value) ==> forall x :: x in r <==>
      x != "" && exists part :: part in Split(value.value, ',') && NormalizeEntry(part) == x
  {
    if !Truthy(value) then []
    else
      NormalizedParts(Split(value.value, ','));
      NonEmpty(NormalizeAll(Split(value.value, ',')))
  }

  /** A comma-free value gives its one normalised entry, or nothing when that is empty. */
  lemma ParseEnvListPiece(a: string)
    requires ',' !in a
    ensures ParseEnvList(Some(a)) == if NormalizeEntry(a) == "" then [] else [NormalizeEntry(a)]
  {
    if a != "" {
      SplitNoSep(a, ',');
      assert NormalizeAll([a]) == [NormalizeEntry(a)];
    } else {
      assert |Trim(a)| == 0;
    }
  }

  /** The entries come in comma order: the list of `a,b` is the list of `a` followed by that of `b`. */
  lemma ParseEnvListAppend(a: string, b: string)
    ensures ParseEnvList(Some(a + "," + b)) == ParseEnvList(Some(a)) + ParseEnvList(Some(b))
  {
    var pa, pb := Split(a, ','), Split(b, ',');
    assert a + "," + b == a + [','] + b;
    SplitAppend(a, ',', b);
    ParsedParts(a);
    ParsedParts(b);
    ParsedParts(a + "," + b);
    NormalizeAllAppend(pa, pb);
    NonEmptyAppend(NormalizeAll(pa), NormalizeAll(pb));
  }

  /** Normalising is element by element, so it distributes over concatenation. */
  lemma NormalizeAllAppend(a: seq<string>, b: seq<string>)
    ensures NormalizeAll(a + b) == NormalizeAll(a) + NormalizeAll(b)
  {
    NormalizeAllAppendLeft(a, b);
    NormalizeAllAppendRight(a, b);
    assert |NormalizeAll(a)| == |a|;
    ConcatIndexwise(NormalizeAll(a + b), NormalizeAll(a), NormalizeAll(b));
  }

  lemma NormalizeAllAppendLeft(a: seq<string>, b: seq<string>)
    ensures AgreesFrom(NormalizeAll(a + b), 0, NormalizeAll(a))
  {
    forall i | 0 <= i < |a|
      ensures NormalizeAll(a + b)[0 + i] == NormalizeAll(a)[i]
    {
      assert (a + b)[i] == a[i];
    }
  }

  lemma NormalizeAllAppendRight(a: seq<string>, b: seq<string>)
    ensures AgreesFrom(NormalizeAll(a + b), |a|, NormalizeAll(b))
  {
    forall i | 0 <= i < |b|
      ensures NormalizeAll(a + b)[|a| + i] == NormalizeAll(b)[i]
    {
      assert (a + b)[|a| + i] == b[i];
    }
  }

  /** `l` holds `x` from index `off` on. */
  ghost predicate AgreesFrom<T>(l: seq<T>, off: nat, x: seq<T>)
  {
    off + |x| <= |l| && forall i :: 0 <= i < |x| ==> l[off + i] == x[i]
  }

  /** A sequence that holds `x` at its start and `y` right after, and nothing more, is `x + y`. */
  lemma ConcatIndexwise<T>(l: seq<T>, x: seq<T>, y: seq<T>)
    requires |l| == |x| + |y|
    requires AgreesFrom(l, 0, x) && AgreesFrom(l, |x|, y)
    ensures l == x + y
  {
    forall i | 0 <= i < |l|
      ensures l[i] == (x + y)[i]
    {
      if i < |x| {
        assert l[0 + i] == x[i];
      } else {
        assert l[|x| + (i - |x|)] == y[i - |x|];
      }
    }
  }

  /** The empty value too gives the non-empty normalised comma pieces: none. */
  lemma ParsedParts(v: string)
    ensures ParseEnvList(Some(v)) == NonEmpty(NormalizeAll(Split(v, ',')))
  {
    if v == "" {
      assert Split(v, ',') == [""];
      assert NormalizeEntry("") == "" by { assert |Trim("")| == 0; }
      assert NormalizeAll([""]) == [""];
      assert [""][1..] == [];
      assert NonEmpty([""]) == [];
    }
  }

  /** The normalised entries are exactly the normalised parts, and keep their shape. */
  lemma NormalizedParts(parts: seq<string>)
    requires forall p :: p in parts ==> ',' !in p
    ensures forall x :: x in NormalizeAll(parts) <==> exists part :: part in parts && NormalizeEntry(part) == x
    ensures forall x :: x in NormalizeAll(parts) ==> IsTrimmed(x) && Lower(x) == x && ',' !in x
  {
    var normalized := NormalizeAll(parts);
    forall x | x in normalized
      ensures (exists part :: part in parts && NormalizeEntry(part) == x) && ',' !in x
    {
      var i :| 0 <= i < |parts| && normalized[i] == x;
      assert parts[i] in parts;
      NormalizeKeepsNoComma(parts[i]);
    }
    forall part | part in parts
      ensures NormalizeEntry(part) in normalized
    {
      var i :| 0 <= i < |parts| && parts[i] == part;
      assert normalized[i] == NormalizeEntry(part);
    }
  }

  /** Normalising an entry never introduces a comma. */
  lemma NormalizeKeepsNoComma(item: string)
    requires ',' !in item
    ensures ',' !in NormalizeEntry(item)
  {
    var s := TrimStart(item);
    var t := TrimEnd(s);
    assert Trim(item) == t;
    forall j | 0 <= j < |t| ensures Lower(t)[j] != ',' {
      assert t[j] == s[j] == item[|item| - |s| + j];
    }
  }

  /** `normalizeDomain`: removes one leading '@', and changes nothing else. */
  function NormalizeDomain(domain: string): (r: string)
    ensures |domain| > 0 && domain[0] == '@' ==> domain == "@" + r
    ensures (|domain| == 0 || domain[0] != '@') ==> r == domain
  {
    if |domain| > 0 && domain[0] == '@' then domain[1..] else domain
  }

  function NormalizeDomains(domains: seq<string>): (r: seq<string>)
    ensures |r| == |domains|
    ensures forall i :: 0 <= i < |domains| ==> r[i] == NormalizeDomain(domains[i])
  {
    if domains == [] then [] else [NormalizeDomain(domains[0])] + NormalizeDomains(domains[1..])
  }

  /**
   * `loadAllowlistConfig`, given the values of AUTH_ALLOWED_DOMAINS and
   * AUTH_ALLOWED_EMAILS: domains lose one leading '@'; the config is empty
   * exactly when both lists are.
   */
  function LoadAllowlistConfig(allowedDomains: Option<string>, allowedEmails: Option<string>): (c: AllowlistConfig)
    ensures c.emails == ParseEnvList(allowedEmails)
    ensures |c.domains| == |ParseEnvList(allowedDomains)|
    ensures forall i :: 0 <= i < |c.domains| ==> c.domains[i] == NormalizeDomain(ParseEnvList(allowedDomains)[i])
    ensures c.isEmpty <==> c.domains == [] && c.emails == []
    ensures !Truthy(allowedDomains) && !Truthy(allowedEmails) ==> c.isEmpty
  {
    var domains := NormalizeDomains(ParseEnvList(allowedDomains));
    var emails := ParseEnvList(allowedEmails);
    AllowlistConfig(domains, emails, |domains| == 0 && |emails| == 0)
  }

  // ---------------------------------------------------------------------
  // Deciding
  // ---------------------------------------------------------------------

  /** `email.split('@')[1]`: the text between the first '@' and the next one, if any. */
  function EmailDomain(email: string): (r: Option<string>)
    ensures r.Some? <==> '@' in email
    ensures r.Some? ==> '@' !in r.value
    ensures r.Some? ==> exists i :: FollowsFirstAt(email, i, r.value)
  {
    var parts := Split(email, '@');
    if |parts| >= 2 then
      assert '@' in email by {
        JoinSplit(email, '@');
        assert email == parts[0] + ['@'] + Join(parts[1..], '@');
      }
      SecondPart(email);
      Some(parts[1])
    else
      assert '@' !in email by { JoinSplit(email, '@'); }
      None
  }

  /** `email[i]` is its first '@', and `d` follows it up to the next '@' or the end. */
  predicate FollowsFirstAt(email: string, i: int, d: string) {
    0 <= i < |email| && email[i] == '@' && '@' !in email[..i]
    && i + 1 + |d| <= |email| && email[i + 1..i + 1 + |d|] == d
    && (i + 1 + |d| == |email| || email[i + 1 + |d|] == '@')
  }

  /** The second part of a split at '@' sits right after the first '@' and runs to the next one or the end. */
  lemma SecondPart(email: string)
    requires |Split(email, '@')| >= 2
    ensures exists i :: FollowsFirstAt(email, i, Split(email, '@')[1])
  {
    var parts := Split(email, '@');
    var f := parts[0];
    SplitFirst(email, '@');
    assert '@' !in f by { assert f in parts; }
    if |f| == |email| {
      assert email == f;
      SplitNoSep(email, '@');
      assert false;
    }
    var i := |f|;
    var b := email[i + 1..];
    assert email == f + ['@'] + b;
    SplitAtSep(f, b, '@');
    assert parts[1] == Split(b, '@')[0];
    var d := parts[1];
    SplitFirst(b, '@');
    assert email[..i] == f;
    assert i + 1 + |d| <= |email|;
    assert email[i + 1..i + 1 + |d|] == b[..|d|] == d;
    assert i + 1 + |d| < |email| ==> email[i + 1 + |d|] == b[|d|] == '@';
    assert email[i] == '@';
    assert FollowsFirstAt(email, i, d);
  }

  /** An address `local@domain` has domain `domain`. */
  lemma EmailDomainOfAddress(local: string, domain: string)
    requires '@' !in local && '@' !in domain
    ensures EmailDomain(local + "@" + domain) == Some(domain)
  {
    SplitAtSep(local, domain, '@');
    SplitNoSep(domain, '@');
  }

  /**
   * `checkAllowlist`: no e-mail → NO_EMAIL; empty config → ALLOWLIST_EMPTY
   * (fail-closed); listed e-mail → EMAIL_MATCH (checked first); listed
   * domain → DOMAIN_MATCH; otherwise DOMAIN_NOT_ALLOWED.
   */
  function CheckAllowlist(email: Option<string>, config: AllowlistConfig): (r: AuthorizationResult)
    ensures r.allowed <==> r.reason == EmailMatch || r.reason == DomainMatch
    ensures r.reason == NoEmail <==> !Truthy(email)
    ensures r.reason == AllowlistEmpty <==> Truthy(email) && config.isEmpty
    ensures r.reason == EmailMatch <==> Truthy(email) && !config.isEmpty && Lower(email.value) in config.emails
    ensures r.reason == DomainMatch <==>
      Truthy(email) && !config.isEmpty && Lower(email.value) !in config.emails
      && Truthy(EmailDomain(Lower(email.value))) && EmailDomain(Lower(email.value)).value in config.domains
  {
    if !Truthy(email) then AuthorizationResult(false, NoEmail)
    else if config.isEmpty then AuthorizationResult(false, AllowlistEmpty)
    else
      var normalizedEmail := Lower(email.value);
      if normalizedEmail in config.emails then AuthorizationResult(true, EmailMatch)
      else
        var emailDomain := EmailDomain(normalizedEmail);
        if Truthy(emailDomain) && emailDomain.value in config.domains then AuthorizationResult(true, DomainMatch)
        else AuthorizationResult(false, DomainNotAllowed)
  }

  /** With neither list configured, nobody is allowed in. */
  lemma FailClosed(email: Option<string>, allowedDomains: Option<string>, allowedEmails: Option<string>)
    requires !Truthy(allowedDomains) && !Truthy(allowedEmails)
    ensures !CheckAllowlist(email, LoadAllowlistConfig(allowedDomains, allowedEmails)).allowed
  {
  }

  /** Upper and lower case in a listed address do not matter. */
  lemma EmailMatchIgnoresCase(email: string, config: AllowlistConfig)
    requires !config.isEmpty && email != "" && Lower(email) in config.emails
    ensures CheckAllowlist(Some(email), config).reason == EmailMatch
    ensures CheckAllowlist(Some(Lower(email)), config).reason == EmailMatch
  {
    LowerIdempotent(email);
  }

  /** Anyone whose domain is listed gets in, by e-mail match or domain match. */
  lemma ListedDomainIsAllowed(local: string, domain: string, config: AllowlistConfig)
    requires '@' !in local && '@' !in domain && domain != ""
    requires !config.isEmpty && Lower(domain) in config.domains
    ensures CheckAllowlist(Some(local + "@" + domain), config).allowed
  {
    var email := local + "@" + domain;
    assert Lower(email) == Lower(local) + "@" + Lower(domain);
    EmailDomainOfAddress(Lower(local), Lower(domain));
  }

  /** A configured domain that still contains '@' (say "@@example.com") can never match. */
  lemma DomainWithAtNeverMatches(email: Option<string>, config: AllowlistConfig)
    requires forall d :: d in config.domains ==> '@' in d
    ensures CheckAllowlist(email, config).reason != DomainMatch
  {
  }
}
