/** The requests sent to Athenz: the query of a role token request, the form and scope of an access token request. */
module Requests {
  import opened Text
  import opened CacheKey

  const SCOPE_SEPARATOR := ' '
  const SECOND := 1_000_000_000

  function ScopeItem(domain: string, role: string): string {
    domain + ":role." + role
  }

  function ScopeItems(domain: string, roles: seq<string>): (items: seq<string>)
    ensures |items| == |roles|
  {
    seq(|roles|, i requires 0 <= i < |roles| => ScopeItem(domain, roles[i]))
  }

  function Scope(domain: string, role: string): string {
    if role == "" then
      domain + ":domain"
    else
      Join(ScopeItems(domain, Split(role, ROLE_SEPARATOR)), SCOPE_SEPARATOR)
  }

  method CreateScope(domain: string, role: string) returns (scope: string)
    ensures scope == Scope(domain, role)
  {
    if role != "" {
      var roles := Split(role, ROLE_SEPARATOR);
      var scopes := new string[|roles|];
      for i := 0 to |roles|
        invariant scopes[..i] == ScopeItems(domain, roles[..i])
      {
        scopes[i] := domain + ":role." + roles[i];
        assert roles[..i + 1][..i] == roles[..i];
        assert scopes[..i + 1] == scopes[..i] + [scopes[i]];
      }
      assert roles[..|roles|] == roles && scopes[..] == scopes[..|roles|];
      return Join(scopes[..], SCOPE_SEPARATOR);
    }
    return domain + ":domain";
  }

  /** The space-separated pieces of the scope items of the roles. */
  ghost function Pieces(domain: string, roles: seq<string>): multiset<string> {
    if roles == [] then
      multiset{}
    else
      multiset(Split(ScopeItem(domain, roles[0]), SCOPE_SEPARATOR)) + Pieces(domain, roles[1..])
  }

  lemma {:induction false} PiecesOfScopeItems(domain: string, roles: seq<string>)
    ensures multiset(SplitAll(ScopeItems(domain, roles), SCOPE_SEPARATOR)) == Pieces(domain, roles)
  {
    if roles == [] {
    } else {
      assert ScopeItems(domain, roles)[1..] == ScopeItems(domain, roles[1..]);
      PiecesOfScopeItems(domain, roles[1..]);
    }
  }

  lemma {:induction false} PiecesAppend(domain: string, roles: seq<string>, others: seq<string>)
    ensures Pieces(domain, roles + others) == Pieces(domain, roles) + Pieces(domain, others)
  {
    if roles == [] {
      assert roles + others == others;
    } else {
      assert (roles + others)[1..] == roles[1..] + others;
      PiecesAppend(domain, roles[1..], others);
    }
  }

  lemma PiecesAround(domain: string, roles: seq<string>, i: nat)
    requires i < |roles|
    ensures Pieces(domain, roles) == Pieces(domain, [roles[i]] + (roles[..i] + roles[i + 1..]))
  {
    var left, middle, right := roles[..i], [roles[i]], roles[i + 1..];
    assert roles == left + (middle + right);
    PiecesAppend(domain, left, middle + right);
    PiecesAppend(domain, middle, right);
    PiecesAppend(domain, middle, left + right);
    PiecesAppend(domain, left, right);
    Exchange(Pieces(domain, left), Pieces(domain, middle), Pieces(domain, right));
  }

  lemma Exchange(a: multiset<string>, b: multiset<string>, c: multiset<string>)
    ensures a + (b + c) == b + (a + c)
  {
  }

  lemma PermuteTails(roles: seq<string>, others: seq<string>, i: nat)
    requires multiset(roles) == multiset(others) && roles != []
    requires i < |others| && others[i] == roles[0]
    ensures multiset(roles[1..]) == multiset(others[..i] + others[i + 1..])
  {
    assert others == others[..i] + [others[i]] + others[i + 1..];
    assert roles == [roles[0]] + roles[1..];
    assert multiset(roles[1..]) == multiset(roles) - multiset{roles[0]};
  }

  lemma {:induction false} PiecesPermute(domain: string, roles: seq<string>, others: seq<string>)
    requires multiset(roles) == multiset(others)
    ensures Pieces(domain, roles) == Pieces(domain, others)
  {
    assert |multiset(roles)| == |multiset(others)|;
    if roles == [] {
    } else {
      PermutationHasMember(roles, others, roles[0]);
      var i :| 0 <= i < |others| && others[i] == roles[0];
      PermuteTails(roles, others, i);
      PiecesPermute(domain, roles[1..], others[..i] + others[i + 1..]);
      PiecesAround(domain, others, i);
    }
  }

  /** Reordering the roles only reorders the items of the scope, whatever characters the names hold. */
  lemma ScopeOfSameRoles(domain: string, role: string, other: string)
    requires SameRoles(role, other)
    ensures multiset(Split(Scope(domain, role), SCOPE_SEPARATOR)) ==
            multiset(Split(Scope(domain, other), SCOPE_SEPARATOR))
  {
    var roles, others := Split(role, ROLE_SEPARATOR), Split(other, ROLE_SEPARATOR);
    EmptyRole(role, other);
    if role != "" {
      PiecesPermute(domain, roles, others);
      PiecesOfScopeItems(domain, roles);
      PiecesOfScopeItems(domain, others);
      SplitOfJoin(ScopeItems(domain, roles), SCOPE_SEPARATOR);
      SplitOfJoin(ScopeItems(domain, others), SCOPE_SEPARATOR);
    }
  }

  lemma EmptyRole(role: string, other: string)
    requires SameRoles(role, other)
    ensures role == "" <==> other == ""
  {
    SortRolesCanonical(role, other);
    SortRolesSplit(role);
    SortRolesSplit(other);
    SingleRole("");
    if role == "" || other == "" {
      SortRolesOfEmpty(role);
      SortRolesOfEmpty(other);
    }
  }

  lemma SortRolesOfEmpty(role: string)
    requires SortRoles(role) == ""
    ensures role == ""
  {
    var roles := Split(role, ROLE_SEPARATOR);
    SortRolesSplit(role);
    assert |multiset(roles)| == |multiset([""])|;
    PermutationHasMember(roles, [""], roles[0]);
    assert roles == [""];
    JoinOfSplit(role, ROLE_SEPARATOR);
  }

  /** Requests for equal keys ask for the same scope up to order, which section 3.3 of RFC 6749 leaves open. */
  lemma SameKeySameScope(domain: string, role: string, principal: string, domain': string, role': string,
                         principal': string)
    requires Clean(domain, role) && Clean(domain', role')
    requires Encode(domain, role, principal) == Encode(domain', role', principal')
    ensures multiset(Split(Scope(domain, role), SCOPE_SEPARATOR)) ==
            multiset(Split(Scope(domain', role'), SCOPE_SEPARATOR))
  {
    SameKey(domain, role, principal, domain', role', principal');
    ScopeOfSameRoles(domain, role, role');
  }

  /** Reads one scope item back: the text in front of the first ':' and, but for ":domain", the role. */
  function ParseItem(item: string): (string, string) {
    if ':' !in item then
      (item, "")
    else
      var i := IndexOf(item, ':');
      (item[..i], if |item| < i + 6 then "" else item[i + 6..])
  }

  function ParseRoles(items: seq<string>): (roles: seq<string>)
    ensures |roles| == |items|
  {
    seq(|items|, i requires 0 <= i < |items| => ParseItem(items[i]).1)
  }

  /** Reads a scope back into its domain and comma-separated roles. */
  function ParseScope(scope: string): (string, string) {
    var items := Split(scope, SCOPE_SEPARATOR);
    var domain := ParseItem(items[0]).0;
    (domain, if items == [domain + ":domain"] then "" else Join(ParseRoles(items), ROLE_SEPARATOR))
  }

  lemma ParseOfScopeItem(domain: string, role: string)
    requires ':' !in domain
    ensures ParseItem(ScopeItem(domain, role)) == (domain, role)
    ensures ParseItem(domain + ":domain").0 == domain
    ensures ScopeItem(domain, role) != domain + ":domain"
  {
    assert ScopeItem(domain, role) == domain + [':'] + ("role." + role);
    assert domain + ":domain" == domain + [':'] + "domain";
    IndexOfFirst(domain, ':', "role." + role);
    IndexOfFirst(domain, ':', "domain");
    assert ScopeItem(domain, role)[..|domain|] == domain == (domain + ":domain")[..|domain|];
    assert ScopeItem(domain, role)[|domain| + 6..] == role;
    assert ScopeItem(domain, role)[|domain| + 1] == 'r' && (domain + ":domain")[|domain| + 1] == 'd';
  }

  lemma ParseOfCleanScope(domain: string, role: string)
    requires ' ' !in domain && ':' !in domain && ' ' !in role
    ensures ParseScope(Scope(domain, role)) == (domain, role)
  {
    if role == "" {
      SplitWhole(domain + ":domain", SCOPE_SEPARATOR);
      ParseOfScopeItem(domain, role);
    } else {
      var roles := Split(role, ROLE_SEPARATOR);
      var items := ScopeItems(domain, roles);
      JoinOfSplit(role, ROLE_SEPARATOR);
      forall i | 0 <= i < |items| ensures SCOPE_SEPARATOR !in items[i] && ParseItem(items[i]) == (domain, roles[i]) {
        JoinMembers(roles, ROLE_SEPARATOR, SCOPE_SEPARATOR);
        assert SCOPE_SEPARATOR !in roles[i];
        ParseOfScopeItem(domain, roles[i]);
      }
      SplitOfJoin(items, SCOPE_SEPARATOR);
      assert ParseRoles(items) == roles;
      ParseOfScopeItem(domain, roles[0]);
    }
  }

  lemma ParseResultClean(scope: string)
    ensures var (domain, role) := ParseScope(scope); ' ' !in domain && ':' !in domain && ' ' !in role
  {
    var items := Split(scope, SCOPE_SEPARATOR);
    JoinOfSplit(scope, SCOPE_SEPARATOR);
    JoinMembers(ParseRoles(items), ROLE_SEPARATOR, ' ');
  }

  /**
   The scope determines the domain and the role list, in order, exactly when no space and no ':' misleads the reader.
   */
  lemma ParseOfScope(domain: string, role: string)
    ensures ParseScope(Scope(domain, role)) == (domain, role)
            <==> ' ' !in domain && ':' !in domain && ' ' !in role
  {
    ParseResultClean(Scope(domain, role));
    if ' ' !in domain && ':' !in domain && ' ' !in role {
      ParseOfCleanScope(domain, role);
    }
  }

  datatype Value = Str(text: string) | Num(number: int)

  datatype Request =
    | RoleRequest(path: string, given: string, query: map<string, Value>) // `given` is the query text the URL came with
    | AccessRequest(form: map<string, Value>)

  /** `duration / time.Second`, which truncates toward zero. */
  function Seconds(duration: int): int {
    if duration >= 0 then duration / SECOND else -(-duration / SECOND)
  }

  function When(condition: bool, name: string, value: Value): map<string, Value> {
    if condition then map[name := value] else map[]
  }

  function Before(s: string, c: char): string {
    if c in s then s[..IndexOf(s, c)] else s
  }

  function After(s: string, c: char): string {
    if c in s then s[IndexOf(s, c) + 1..] else ""
  }

  /** The path of the request and the query text that comes with it: the fragment of the URL is not sent. */
  function Target(domain: string): (string, string) {
    var url := Before("/domain/" + domain + "/token", '#');
    (Before(url, '?'), After(url, '?'))
  }

  /** The domain holds nothing that ends the path of a URL; such a domain brings no parameters of its own. */
  predicate IsPlain(domain: string) {
    '?' !in domain && '#' !in domain
  }

  lemma PlainTarget(domain: string)
    requires IsPlain(domain)
    ensures Target(domain) == ("/domain/" + domain + "/token", "")
  {
    var url := "/domain/" + domain + "/token";
    assert forall i :: 0 <= i < |url| ==> url[i] != '?' && url[i] != '#';
  }

  /** Plain domains have different paths. */
  lemma PlainTargetsDiffer(domain: string, other: string)
    requires IsPlain(domain) && IsPlain(other)
    ensures Target(domain) == Target(other) <==> domain == other
  {
    PlainTarget(domain);
    PlainTarget(other);
    assert domain == Target(domain).0[8..|Target(domain).0| - 6];
    assert other == Target(other).0[8..|Target(other).0| - 6];
  }

  /** What follows a '#' in a domain does not reach Athenz; what follows a '?' becomes part of the query. */
  lemma CutTarget(domain: string, rest: string)
    requires IsPlain(domain)
    ensures Target(domain + "#" + rest) == ("/domain/" + domain, "")
    ensures '#' !in rest ==> Target(domain + "?" + rest) == ("/domain/" + domain, rest + "/token")
  {
    var head := "/domain/" + domain;
    assert forall i :: 0 <= i < |head| ==> head[i] != '?' && head[i] != '#';
    CutAt(head, '#', rest + "/token");
    assert "/domain/" + (domain + "#" + rest) + "/token" == head + ['#'] + (rest + "/token");
    if '#' !in rest {
      CutAt(head, '?', rest + "/token");
      var url := "/domain/" + (domain + "?" + rest) + "/token";
      assert url == head + ['?'] + (rest + "/token");
      assert '#' !in url;
    }
  }

  lemma CutAt(head: string, c: char, tail: string)
    requires c !in head
    ensures Before(head + [c] + tail, c) == head && After(head + [c] + tail, c) == tail
  {
    IndexOfFirst(head, c, tail);
  }

  function CreateRoleRequest(domain: string, role: string, minExpiry: int, maxExpiry: int, principal: string,
                             expiry: int): Request {
    var minExp := if minExpiry > 0 then minExpiry else Seconds(expiry);
    RoleRequest(Target(domain).0, Target(domain).1,
                When(role != "", "role", Str(role))
                + When(minExp > 0, "minExpiryTime", Num(minExp))
                + When(maxExpiry > 0, "maxExpiryTime", Num(maxExpiry))
                + When(principal != "", "proxyForPrincipal", Str(principal)))
  }

  function CreateAccessRequest(scope: string, principal: string, expiresIn: int, expiry: int): Request {
    var expires := if expiresIn <= 0 then Seconds(expiry) else expiresIn;
    AccessRequest(map["grant_type" := Str("client_credentials"), "scope" := Str(scope)]
                  + When(principal != "", "proxy_for_principal", Str(principal))
                  + When(expires > 0, "expires_in", Num(expires)))
  }

  /** The lifetime a request asks for: the caller's if positive, else the configured one; 0 asks for none. */
  function Effective(requested: int, expiry: int): int {
    if requested > 0 then requested else if expiry >= SECOND then expiry / SECOND else 0
  }

  /** Two role token requests are the same exactly when they go to the same target and ask for the same thing there. */
  lemma RoleRequestsAgree(d: string, r: string, lo: int, hi: int, p: string,
                          d': string, r': string, lo': int, hi': int, p': string, expiry: int)
    ensures CreateRoleRequest(d, r, lo, hi, p, expiry) == CreateRoleRequest(d', r', lo', hi', p', expiry)
            <==> Target(d) == Target(d') && r == r' && p == p' && Effective(lo, expiry) == Effective(lo', expiry)
                 && Effective(hi, 0) == Effective(hi', 0)
    ensures IsPlain(d) && IsPlain(d') ==> (Target(d) == Target(d') <==> d == d')
  {
    ReadRoleQuery(d, r, lo, hi, p, expiry);
    ReadRoleQuery(d', r', lo', hi', p', expiry);
    if IsPlain(d) && IsPlain(d') {
      PlainTargetsDiffer(d, d');
    }
  }

  function Field(values: map<string, Value>, name: string, default: Value): Value {
    if name in values then values[name] else default
  }

  /** Reading the added parameters gives back role, effective bounds and principal. */
  lemma ReadRoleQuery(domain: string, role: string, minExpiry: int, maxExpiry: int, principal: string, expiry: int)
    ensures var query := CreateRoleRequest(domain, role, minExpiry, maxExpiry, principal, expiry).query;
            && Field(query, "role", Str("")) == Str(role)
            && Field(query, "minExpiryTime", Num(0)) == Num(Effective(minExpiry, expiry))
            && Field(query, "maxExpiryTime", Num(0)) == Num(Effective(maxExpiry, 0))
            && Field(query, "proxyForPrincipal", Str("")) == Str(principal)
  {
  }

  /** Which parameters are sent: those that are not empty or positive, and no others. */
  lemma QueryParameters(domain: string, role: string, lo: int, hi: int, principal: string, expiry: int)
    ensures var query := CreateRoleRequest(domain, role, lo, hi, principal, expiry).query;
            && ("role" in query <==> role != "")
            && ("minExpiryTime" in query <==> lo > 0 || expiry >= 1_000_000_000)
            && ("maxExpiryTime" in query <==> hi > 0)
            && ("proxyForPrincipal" in query <==> principal != "")
    ensures CreateRoleRequest(domain, role, lo, hi, principal, expiry).query.Keys
            <= {"role", "minExpiryTime", "maxExpiryTime", "proxyForPrincipal"}
  {
    QueryKeys(domain, role, lo, hi, principal, expiry);
  }

  lemma QueryKeys(domain: string, role: string, lo: int, hi: int, principal: string, expiry: int)
    ensures CreateRoleRequest(domain, role, lo, hi, principal, expiry).query.Keys
            <= {"role", "minExpiryTime", "maxExpiryTime", "proxyForPrincipal"}
  {
  }

  /** The same for the form, which always names the grant and the scope. */
  lemma FormParameters(scope: string, principal: string, expiresIn: int, expiry: int)
    ensures var form := CreateAccessRequest(scope, principal, expiresIn, expiry).form;
            && "grant_type" in form && form["grant_type"] == Str("client_credentials")
            && "scope" in form
            && ("proxy_for_principal" in form <==> principal != "")
            && ("expires_in" in form <==> expiresIn > 0 || expiry >= 1_000_000_000)
            && form.Keys <= {"grant_type", "scope", "proxy_for_principal", "expires_in"}
  {
  }

  /** The text of a scope: ":domain" without roles, else ":role." and the role for each, separated by spaces. */
  lemma ScopeText(domain: string, role: string, rest: string)
    requires ',' !in role
    ensures Scope(domain, "") == domain + ":domain"
    ensures role != "" ==> Scope(domain, role) == domain + ":role." + role
    ensures Scope(domain, role + "," + rest) ==
            domain + ":role." + role + " " + (if rest == "" then domain + ":role." else Scope(domain, rest))
  {
    SplitWhole(role, ',');
    assert ScopeItems(domain, [role]) == [domain + ":role." + role];
    SplitAround(role, ',', rest);
    var roles := Split(rest, ',');
    assert Split(role + "," + rest, ',') == [role] + roles;
    ScopeItemsSplit(domain, role, roles);
    if rest == "" {
      assert roles == [""] && ScopeItem(domain, "") == domain + ":role.";
      assert ScopeItems(domain, roles) == [domain + ":role."];
    }
  }

  lemma ScopeItemsSplit(domain: string, role: string, roles: seq<string>)
    requires roles != []
    ensures Join(ScopeItems(domain, [role] + roles), ' ') ==
            domain + ":role." + role + " " + Join(ScopeItems(domain, roles), ' ')
  {
    var items := ScopeItems(domain, [role] + roles);
    assert items[1..] == ScopeItems(domain, roles);
  }

  function TextOf(values: map<string, Value>, name: string): string {
    match Field(values, name, Str(""))
    case Str(text) => text
    case Num(_) => ""
  }

  /** The requests differ at most in the order of the roles in the query, or of the items of the scope in the form. */
  ghost predicate SameUpToOrder(request: Request, other: Request) {
    match (request, other)
    case (RoleRequest(path, given, query), RoleRequest(path', given', query')) =>
      path == path' && given == given' && query - {"role"} == query' - {"role"}
          && SameRoles(TextOf(query, "role"), TextOf(query', "role"))
    case (AccessRequest(form), AccessRequest(form')) =>
      form - {"scope"} == form' - {"scope"}
      && multiset(Split(TextOf(form, "scope"), SCOPE_SEPARATOR)) ==
           multiset(Split(TextOf(form', "scope"), SCOPE_SEPARATOR))
    case _ => false
  }

  lemma SumWithout(a: map<string, Value>, a': map<string, Value>, b: map<string, Value>, name: string)
    requires a - {name} == a' - {name}
    ensures a + b - {name} == a' + b - {name}
  {
    forall key | key in a + b - {name}
      ensures key in a' + b - {name} && (a + b - {name})[key] == (a' + b - {name})[key]
    {
      if key !in b {
        assert key in a - {name} && (a - {name})[key] == a[key];
      }
    }
    forall key | key in a' + b - {name} ensures key in a + b - {name} {
      if key !in b {
        assert key in a' - {name};
      }
    }
  }

  lemma ReorderedRoleRequest(domain: string, role: string, role': string, lo: int, hi: int, principal: string,
                             expiry: int)
    requires SameRoles(role, role')
    ensures SameUpToOrder(CreateRoleRequest(domain, role, lo, hi, principal, expiry),
                          CreateRoleRequest(domain, role', lo, hi, principal, expiry))
  {
    ReadRoleQuery(domain, role, lo, hi, principal, expiry);
    ReadRoleQuery(domain, role', lo, hi, principal, expiry);
    QueryWithoutRole(domain, role, role', lo, hi, principal, expiry);
  }

  lemma QueryWithoutRole(domain: string, role: string, role': string, lo: int, hi: int, principal: string, expiry: int)
    ensures CreateRoleRequest(domain, role, lo, hi, principal, expiry).query - {"role"} ==
            CreateRoleRequest(domain, role', lo, hi, principal, expiry).query - {"role"}
  {
    var minExp := if lo > 0 then lo else Seconds(expiry);
    var r, r' := When(role != "", "role", Str(role)), When(role' != "", "role", Str(role'));
    var lower, upper := When(minExp > 0, "minExpiryTime", Num(minExp)), When(hi > 0, "maxExpiryTime", Num(hi));
    SumWithout(r, r', lower, "role");
    SumWithout(r + lower, r' + lower, upper, "role");
    SumWithout(r + lower + upper, r' + lower + upper,
               When(principal != "", "proxyForPrincipal", Str(principal)), "role");
  }

  lemma ReorderedAccessRequest(domain: string, role: string, role': string, principal: string, expiresIn: int,
                               expiry: int)
    requires SameRoles(role, role')
    ensures SameUpToOrder(CreateAccessRequest(Scope(domain, role), principal, expiresIn, expiry),
                          CreateAccessRequest(Scope(domain, role'), principal, expiresIn, expiry))
  {
    ScopeOfSameRoles(domain, role, role');
    RescopedAccessRequest(Scope(domain, role), Scope(domain, role'), principal, expiresIn, expiry);
  }

  lemma RescopedAccessRequest(scope: string, scope': string, principal: string, expiresIn: int, expiry: int)
    requires multiset(Split(scope, SCOPE_SEPARATOR)) == multiset(Split(scope', SCOPE_SEPARATOR))
    ensures SameUpToOrder(CreateAccessRequest(scope, principal, expiresIn, expiry),
                          CreateAccessRequest(scope', principal, expiresIn, expiry))
  {
    ReadAccessForm(scope, principal, expiresIn, expiry);
    ReadAccessForm(scope', principal, expiresIn, expiry);
    FormWithoutScope(scope, scope', principal, expiresIn, expiry);
  }

  lemma FormWithoutScope(scope: string, scope': string, principal: string, expiresIn: int, expiry: int)
    ensures CreateAccessRequest(scope, principal, expiresIn, expiry).form - {"scope"} ==
            CreateAccessRequest(scope', principal, expiresIn, expiry).form - {"scope"}
  {
    var expires := if expiresIn <= 0 then Seconds(expiry) else expiresIn;
    var form := map["grant_type" := Str("client_credentials"), "scope" := Str(scope)];
    var form' := map["grant_type" := Str("client_credentials"), "scope" := Str(scope')];
    var proxy := When(principal != "", "proxy_for_principal", Str(principal));
    SumWithout(form, form', proxy, "scope");
    SumWithout(form + proxy, form' + proxy, When(expires > 0, "expires_in", Num(expires)), "scope");
  }

  lemma ReadAccessForm(scope: string, principal: string, expiresIn: int, expiry: int)
    ensures var form := CreateAccessRequest(scope, principal, expiresIn, expiry).form;
            && Field(form, "scope", Str("")) == Str(scope)
            && Field(form, "proxy_for_principal", Str("")) == Str(principal)
            && Field(form, "expires_in", Num(0)) == Num(Effective(expiresIn, expiry))
  {
  }

  /** Two access token requests are the same exactly when scope, principal and lifetime are. */
  lemma AccessRequestsAgree(s: string, p: string, e: int, s': string, p': string, e': int, expiry: int)
    ensures CreateAccessRequest(s, p, e, expiry) == CreateAccessRequest(s', p', e', expiry)
            <==> s == s' && p == p' && Effective(e, expiry) == Effective(e', expiry)
  {
    ReadAccessForm(s, p, e, expiry);
    ReadAccessForm(s', p', e', expiry);
  }
}
