/**
 What the role and access token services share: calls, tokens, cache items and their time to live. Times are
 nanoseconds.
 */
module TokenModel {
  import opened Text
  import opened CacheKey
  import opened Requests

  const MINUTE := 60 * SECOND

  /** The expiry arguments of a call; they are not part of the cache key. */
  datatype Bounds = RoleBounds(minExpiry: int, maxExpiry: int) | AccessBounds(expiresIn: int)

  datatype Args = Args(domain: string, role: string, principal: string, bounds: Bounds) {
    function Key(): string { Encode(domain, role, principal) }

    predicate IsClean() { Clean(domain, role) }
  }

  /** `expiry` is in seconds: `expiryTime` of a role token, `expires_in` of an access token. */
  datatype Token = Token(text: string, expiry: int)

  datatype Outcome = Ok(token: Token) | Err(error: string)

  /** A cache entry; without a deadline it stays readable. */
  datatype Item = Item(token: Token, args: Args, deadline: Option<int>)

  function CreateRequest(args: Args, expiry: int): Request {
    match args.bounds
    case RoleBounds(minExpiry, maxExpiry) =>
      CreateRoleRequest(args.domain, args.role, minExpiry, maxExpiry, args.principal, expiry)
    case AccessBounds(expiresIn) =>
      CreateAccessRequest(Scope(args.domain, args.role), args.principal, expiresIn, expiry)
  }

  /** What is sent for a call with the bounds of a role token. */
  lemma RoleRequestOfCall(args: Args, expiry: int)
    requires args.bounds.RoleBounds?
    ensures var request, lo, hi := CreateRequest(args, expiry), args.bounds.minExpiry, args.bounds.maxExpiry;
      && request.RoleRequest? && (request.path, request.given) == Target(args.domain)
      && (IsPlain(args.domain) ==> request.path == "/domain/" + args.domain + "/token" && request.given == "")
      && ("role" in request.query <==> args.role != "")
      && (args.role != "" ==> request.query["role"] == Str(args.role))
      && ("minExpiryTime" in request.query <==> lo > 0 || expiry >= 1_000_000_000)
      && (lo > 0 ==> request.query["minExpiryTime"] == Num(lo))
      && (lo <= 0 && expiry >= 1_000_000_000 ==> request.query["minExpiryTime"] == Num(expiry / 1_000_000_000))
      && ("maxExpiryTime" in request.query <==> hi > 0)
      && (hi > 0 ==> request.query["maxExpiryTime"] == Num(hi))
      && ("proxyForPrincipal" in request.query <==> args.principal != "")
      && (args.principal != "" ==> request.query["proxyForPrincipal"] == Str(args.principal))
      && request.query.Keys <= {"role", "minExpiryTime", "maxExpiryTime", "proxyForPrincipal"}
  {
    var lo, hi := args.bounds.minExpiry, args.bounds.maxExpiry;
    QueryParameters(args.domain, args.role, lo, hi, args.principal, expiry);
    ReadRoleQuery(args.domain, args.role, lo, hi, args.principal, expiry);
    if IsPlain(args.domain) {
      PlainTarget(args.domain);
    }
  }

  /** What is sent for a call with the bounds of an access token; the scope's text is that of `Requests.ScopeText`. */
  lemma AccessRequestOfCall(args: Args, expiry: int)
    requires args.bounds.AccessBounds?
    ensures var request, expiresIn := CreateRequest(args, expiry), args.bounds.expiresIn;
      && request.AccessRequest?
      && "grant_type" in request.form && request.form["grant_type"] == Str("client_credentials")
      && "scope" in request.form && request.form["scope"] == Str(Scope(args.domain, args.role))
      && (' ' !in args.domain && ':' !in args.domain && ' ' !in args.role ==>
            ParseScope(request.form["scope"].text) == (args.domain, args.role))
      && ("proxy_for_principal" in request.form <==> args.principal != "")
      && (args.principal != "" ==> request.form["proxy_for_principal"] == Str(args.principal))
      && ("expires_in" in request.form <==> expiresIn > 0 || expiry >= 1_000_000_000)
      && (expiresIn > 0 ==> request.form["expires_in"] == Num(expiresIn))
      && (expiresIn <= 0 && expiry >= 1_000_000_000 ==>
            request.form["expires_in"] == Num(expiry / 1_000_000_000))
      && request.form.Keys <= {"grant_type", "scope", "proxy_for_principal", "expires_in"}
  {
    var scope := Scope(args.domain, args.role);
    FormParameters(scope, args.principal, args.bounds.expiresIn, expiry);
    ReadAccessForm(scope, args.principal, args.bounds.expiresIn, expiry);
    ParseOfScope(args.domain, args.role);
  }

  /** The caller read the clock at `readAt`; the cache counts the time to live from `storedAt`. */
  function Deadline(expiry: int, readAt: int, storedAt: int): Option<int> {
    var timeToLive := expiry * SECOND - (readAt + MINUTE);
    if timeToLive > 0 then Some(storedAt + timeToLive) else None
  }

  predicate Readable(deadline: Option<int>, now: int) {
    deadline.None? || now <= deadline.value
  }

  function NewItem(token: Token, args: Args, readAt: int, storedAt: int): Item {
    Item(token, args, Deadline(token.expiry, readAt, storedAt))
  }

  /** What a refresh of this item asks for: the decoded key, with the bounds of the stored call. */
  function RefreshArgs(key: string, item: Item): Args {
    var (domain, role, principal) := Decode(key);
    Args(domain, role, principal, item.args.bounds)
  }

  /** The calls ask for the same token, up to the order of the roles and the expiry bounds. */
  ghost predicate SameToken(args: Args, other: Args) {
    args.domain == other.domain && args.principal == other.principal && SameRoles(args.role, other.role)
  }

  lemma SameKeySameToken(args: Args, other: Args)
    requires args.IsClean() && other.IsClean()
    ensures args.Key() == other.Key() <==> SameToken(args, other)
  {
    SameKey(args.domain, args.role, args.principal, other.domain, other.role, other.principal);
  }

  /**
   A call shares its key with a clean call for another token exactly when it is not clean itself and its key is one that
   a refresh keeps.
   */
  lemma CleanCollision(x: Args)
    ensures (exists y: Args :: y.IsClean() && y.Key() == x.Key() && !SameToken(x, y))
            <==> !x.IsClean() && Refreshable(x.Key())
  {
    forall y: Args | y.IsClean() && y.Key() == x.Key() && !SameToken(x, y)
      ensures !x.IsClean() && Refreshable(x.Key())
    {
      CleanKeyRefreshable(y.domain, y.role, y.principal);
      if x.IsClean() {
        SameKeySameToken(x, y);
      }
    }
    if !x.IsClean() && Refreshable(x.Key()) {
      var y := CollidingCall(x);
    }
  }

  lemma CollidingCall(x: Args) returns (y: Args)
    requires !x.IsClean() && Refreshable(x.Key())
    ensures y.IsClean() && y.Key() == x.Key() && !SameToken(x, y)
  {
    var (domain, role, principal) := Decode(x.Key());
    y := Args(domain, role, principal, x.bounds);
    EncodeOfDecode(x.Key());
    DecodeForm(x.Key());
    if SameToken(x, y) {
      SortRolesCanonical(x.role, role);
      SortRolesMembers(x.role, KEY_SEPARATOR);
      SortRolesMembers(role, KEY_SEPARATOR);
    }
  }

  /**
   The separators at `i` and `j`, or at `i` and none before the principal, divide the key into the fields of some call:
   an ordered role list, and a principal that is not empty if it has a separator.
   */
  predicate IsReading(key: string, i: nat, j: nat) {
    && i < j <= |key| && key[i] == KEY_SEPARATOR
    && (j == |key| || (j < |key| - 1 && key[j] == KEY_SEPARATOR))
    && Sorted(Split(key[i + 1..j], ROLE_SEPARATOR))
  }

  function ReadAt(key: string, i: nat, j: nat, bounds: Bounds): Args
    requires IsReading(key, i, j)
  {
    Args(key[..i], key[i + 1..j], if j == |key| then "" else key[j + 1..], bounds)
  }

  /** The place of the second separator in the key of the call, or the end of the key. */
  function RolesEnd(args: Args): nat {
    |args.domain| + 1 + |SortRoles(args.role)|
  }

  lemma OwnReading(args: Args)
    ensures IsReading(args.Key(), |args.domain|, RolesEnd(args))
    ensures ReadAt(args.Key(), |args.domain|, RolesEnd(args), args.bounds) == Canonical(args)
  {
    KeyParts(args.domain, args.role, args.principal);
    SortRolesSorted(args.role);
  }

  lemma ReadingIsCall(key: string, i: nat, j: nat, bounds: Bounds)
    requires IsReading(key, i, j)
    ensures ReadAt(key, i, j, bounds).Key() == key
    ensures Canonical(ReadAt(key, i, j, bounds)) == ReadAt(key, i, j, bounds)
  {
    var args := ReadAt(key, i, j, bounds);
    EncodeForm(args.domain, args.role, args.principal);
    SortRolesFixed(args.role);
    assert key == key[..i] + [KEY_SEPARATOR] + key[i + 1..];
    if j < |key| {
      assert key[i + 1..] == args.role + [KEY_SEPARATOR] + args.principal;
    } else {
      assert key[i + 1..] == args.role;
    }
  }

  /** Two calls with the same key ask for the same token exactly when they read it in the same way. */
  lemma SameReading(x: Args, y: Args)
    requires x.Key() == y.Key()
    ensures SameToken(x, y) <==> |x.domain| == |y.domain| && RolesEnd(x) == RolesEnd(y)
  {
    OwnReading(x);
    OwnReading(y);
    SortRolesCanonical(x.role, y.role);
  }

  /** Some call for another token has the same key. */
  ghost predicate Collides(x: Args) {
    exists y: Args :: y.Key() == x.Key() && !SameToken(x, y)
  }

  /**
   Whatever the callers: a call shares its key with one for another token exactly when its key can be read in another
   way.
   */
  lemma Collision(x: Args)
    ensures Collides(x) <==>
            exists i: nat, j: nat :: IsReading(x.Key(), i, j) && (i != |x.domain| || j != RolesEnd(x))
  {
    forall y: Args | y.Key() == x.Key() && !SameToken(x, y)
      ensures IsReading(x.Key(), |y.domain|, RolesEnd(y)) && (|y.domain| != |x.domain| || RolesEnd(y) != RolesEnd(x))
    {
      OwnReading(y);
      SameReading(x, y);
    }
    forall i: nat, j: nat | IsReading(x.Key(), i, j) && (i != |x.domain| || j != RolesEnd(x)) ensures Collides(x) {
      var y := ReadAt(x.Key(), i, j, x.bounds);
      ReadingIsCall(x.Key(), i, j, x.bounds);
      SameReading(x, y);
      assert SortRoles(y.role) == y.role;
    }
  }

  /** In particular a clean call with a comma-free principal does so exactly when it has a principal. */
  lemma CleanVictim(x: Args)
    requires x.IsClean() && ROLE_SEPARATOR !in x.principal
    ensures Collides(x) <==> x.principal != ""
  {
    Collision(x);
    if x.principal == "" {
      forall i: nat, j: nat | IsReading(x.Key(), i, j) ensures i == |x.domain| && j == RolesEnd(x) {
        OnlyReading(x, i, j);
      }
    } else {
      PrincipalRead(x);
    }
  }

  lemma OnlyReading(x: Args, i: nat, j: nat)
    requires x.IsClean() && x.principal == "" && IsReading(x.Key(), i, j)
    ensures i == |x.domain| && j == RolesEnd(x)
  {
    var key, n := x.Key(), |x.domain|;
    KeyParts(x.domain, x.role, x.principal);
    SortRolesMembers(x.role, KEY_SEPARATOR);
    forall k | 0 <= k < |key| && k != n ensures key[k] != KEY_SEPARATOR {
      if k < n {
        assert key[k] == key[..n][k];
      } else {
        assert key[k] == key[n + 1..][k - n - 1];
      }
    }
  }

  /** Domain and roles together are the domain, the principal the role, of the other reading. */
  lemma PrincipalRead(x: Args)
    requires x.principal != "" && ROLE_SEPARATOR !in x.principal
    ensures IsReading(x.Key(), RolesEnd(x), |x.Key()|)
  {
    KeyParts(x.domain, x.role, x.principal);
    SplitWhole(x.principal, ROLE_SEPARATOR);
    assert x.Key()[RolesEnd(x) + 1..|x.Key()|] == x.principal;
  }

  /**
   What is stored for a token: the token and the call, readable until a minute before the token's expiry, later by what
   the fetch took, if it had more than a minute left, and else for good; so some reader can get it after its expiry
   exactly when it came too short-lived or too slowly.
   */
  lemma ReadableAfterExpiry(token: Token, args: Args, readAt: int, storedAt: int)
    requires readAt <= storedAt
    ensures var item, expiry := NewItem(token, args, readAt, storedAt), token.expiry * 1_000_000_000;
      && item.token == token && item.args == args
      && (forall now :: now >= storedAt ==>
            (Readable(item.deadline, now) <==>
             expiry <= readAt + 60_000_000_000 || now <= expiry - 60_000_000_000 + (storedAt - readAt)))
      && ((exists now :: now >= storedAt && now > expiry && Readable(item.deadline, now)) <==>
          expiry <= readAt + 60_000_000_000 || storedAt - readAt > 60_000_000_000)
  {
    var deadline, expiry := NewItem(token, args, readAt, storedAt).deadline, token.expiry * 1_000_000_000;
    if deadline.None? {
      var late := if storedAt > expiry then storedAt else expiry + 1;
      assert Readable(deadline, late);
    } else {
      assert Readable(deadline, deadline.value);
    }
  }

  /** A refresh stores under the key it visits exactly when the key is well formed, and keeps the stored bounds. */
  lemma RefreshKey(key: string, item: Item)
    ensures RefreshArgs(key, item).Key() == key <==> Refreshable(key)
    ensures RefreshArgs(key, item).bounds == item.args.bounds
  {
    EncodeOfDecode(key);
  }

  /** What a refresh asks for in place of the call: the same, its roles sorted. */
  function Canonical(args: Args): Args {
    args.(role := SortRoles(args.role))
  }

  /**
   The refresh of the entry of a clean call keeps key and bounds, and its request differs from that of the call at most
   in the order of the roles.
   */
  lemma RefreshRepeatsRequest(item: Item, expiry: int)
    requires item.args.IsClean()
    ensures var again := RefreshArgs(item.args.Key(), item);
            && again == Canonical(item.args)
            && again.IsClean()
            && again.Key() == item.args.Key()
            && SameUpToOrder(CreateRequest(again, expiry), CreateRequest(item.args, expiry))
  {
    var args, sorted := item.args, SortRoles(item.args.role);
    DecodeOfClean(args.domain, args.role, args.principal);
    SortRolesMembers(args.role, KEY_SEPARATOR);
    CleanKeyRefreshable(args.domain, args.role, args.principal);
    RefreshKey(args.Key(), item);
    SortRolesSplit(args.role);
    match args.bounds
    case RoleBounds(lo, hi) => ReorderedRoleRequest(args.domain, sorted, args.role, lo, hi, args.principal, expiry);
    case AccessBounds(expiresIn) =>
      ReorderedAccessRequest(args.domain, sorted, args.role, args.principal, expiresIn, expiry);
  }
}
