/** The canonical cache keys of the role and access token services. */
module CacheKey {
  import opened Text

  const KEY_SEPARATOR := ';'
  const ROLE_SEPARATOR := ','

  function SortRoles(role: string): string {
    Join(Sort(Split(role, ROLE_SEPARATOR)), ROLE_SEPARATOR)
  }

  function Encode(domain: string, role: string, principal: string): string {
    var fields := [domain, SortRoles(role), principal];
    if principal == "" then Join(fields[..2], KEY_SEPARATOR) else Join(fields, KEY_SEPARATOR)
  }

  function Decode(key: string): (string, string, string) {
    var fields := SplitN(key, KEY_SEPARATOR, 3);
    (fields[0], if |fields| > 1 then fields[1] else "", if |fields| > 2 then fields[2] else "")
  }

  /** The two role lists hold the same roles equally often. */
  ghost predicate SameRoles(role: string, other: string) {
    multiset(Split(role, ',')) == multiset(Split(other, ','))
  }

  /** Neither the domain nor the roles hold the separator of the key. */
  predicate Clean(domain: string, role: string) {
    ';' !in domain && ';' !in role
  }

  lemma SortRolesSplit(role: string)
    ensures Split(SortRoles(role), ROLE_SEPARATOR) == Sort(Split(role, ROLE_SEPARATOR))
    ensures SameRoles(SortRoles(role), role)
  {
    var roles := Split(role, ROLE_SEPARATOR);
    JoinOfSplit(role, ROLE_SEPARATOR);
    SortCorrect(roles);
    assert |multiset(Sort(roles))| == |multiset(roles)|;
    forall i | 0 <= i < |Sort(roles)| ensures ROLE_SEPARATOR !in Sort(roles)[i] {
      PermutationHasMember(Sort(roles), roles, Sort(roles)[i]);
    }
    SplitOfJoin(Sort(roles), ROLE_SEPARATOR);
  }

  lemma SortRolesSorted(role: string)
    ensures Sorted(Split(SortRoles(role), ROLE_SEPARATOR))
  {
    SortRolesSplit(role);
    SortCorrect(Split(role, ROLE_SEPARATOR));
  }

  /** The sorted form is a complete invariant of the role list up to order. */
  lemma SortRolesCanonical(role: string, other: string)
    ensures SortRoles(role) == SortRoles(other) <==> SameRoles(role, other)
  {
    SortRolesSplit(role);
    SortRolesSplit(other);
    SortCorrect(Split(role, ROLE_SEPARATOR));
    SortCorrect(Split(other, ROLE_SEPARATOR));
    if SameRoles(role, other) {
      SortedUnique(Sort(Split(role, ROLE_SEPARATOR)), Sort(Split(other, ROLE_SEPARATOR)));
    }
  }

  lemma SortRolesFixed(role: string)
    ensures SortRoles(role) == role <==> Sorted(Split(role, ROLE_SEPARATOR))
  {
    var roles := Split(role, ROLE_SEPARATOR);
    SortRolesSplit(role);
    SortCorrect(roles);
    if Sorted(roles) {
      SortedUnique(roles, Sort(roles));
      JoinOfSplit(role, ROLE_SEPARATOR);
    }
  }

  lemma SortRolesMembers(role: string, c: char)
    requires c != ROLE_SEPARATOR
    ensures c in SortRoles(role) <==> c in role
  {
    var roles := Split(role, ROLE_SEPARATOR);
    JoinOfSplit(role, ROLE_SEPARATOR);
    SortCorrect(roles);
    JoinMembers(roles, ROLE_SEPARATOR, c);
    JoinMembers(Sort(roles), ROLE_SEPARATOR, c);
    if i :| 0 <= i < |roles| && c in roles[i] {
      PermutationHasMember(roles, Sort(roles), roles[i]);
    }
    if i :| 0 <= i < |Sort(roles)| && c in Sort(roles)[i] {
      PermutationHasMember(Sort(roles), roles, Sort(roles)[i]);
    }
  }

  /** The text of a key from its three fields; an empty principal has no separator in front of it. */
  function KeyText(domain: string, roles: string, principal: string): string {
    domain + [KEY_SEPARATOR] + (if principal == "" then roles else roles + [KEY_SEPARATOR] + principal)
  }

  /** Where the fields are in the text of a key. */
  lemma KeyTextParts(domain: string, roles: string, principal: string)
    ensures var key, i, j := KeyText(domain, roles, principal), |domain|, |domain| + 1 + |roles|;
            && key[i] == KEY_SEPARATOR && key[..i] == domain && key[i + 1..j] == roles
            && (if principal == "" then j == |key|
                else j < |key| - 1 && key[j] == KEY_SEPARATOR && key[j + 1..] == principal)
  {
  }

  lemma EncodeForm(domain: string, role: string, principal: string)
    ensures Encode(domain, role, principal) == KeyText(domain, SortRoles(role), principal)
  {
    var roles := SortRoles(role);
    var fields := [domain, roles, principal];
    if principal == "" {
      assert fields[..2] == [domain, roles] && [domain, roles][1..] == [roles];
      assert Join([domain, roles], KEY_SEPARATOR) == domain + [KEY_SEPARATOR] + roles;
    } else {
      assert fields[1..][1..] == [principal];
      assert Join(fields[1..], KEY_SEPARATOR) == roles + [KEY_SEPARATOR] + principal;
    }
  }

  /** The same for the key of a call. */
  lemma KeyParts(domain: string, role: string, principal: string)
    ensures var key, i, j := Encode(domain, role, principal), |domain|, |domain| + 1 + |SortRoles(role)|;
            && j <= |key| && key[i] == KEY_SEPARATOR && key[..i] == domain && key[i + 1..j] == SortRoles(role)
            && (if principal == "" then j == |key|
                else j < |key| - 1 && key[j] == KEY_SEPARATOR && key[j + 1..] == principal)
  {
    EncodeForm(domain, role, principal);
    KeyTextParts(domain, SortRoles(role), principal);
  }

  lemma FirstField(key: string) returns (head: string, tail: string)
    requires KEY_SEPARATOR in key
    ensures key == head + [KEY_SEPARATOR] + tail && KEY_SEPARATOR !in head
  {
    var i := IndexOf(key, KEY_SEPARATOR);
    head, tail := key[..i], key[i + 1..];
  }

  lemma DecodeTwo(domain: string, role: string)
    requires Clean(domain, role)
    ensures SplitN(domain + [KEY_SEPARATOR] + role, KEY_SEPARATOR, 3) == [domain, role]
    ensures Decode(domain + [KEY_SEPARATOR] + role) == (domain, role, "")
  {
    SplitNAt(domain, KEY_SEPARATOR, role, 3);
  }

  lemma DecodeThree(domain: string, role: string, principal: string)
    requires Clean(domain, role)
    ensures var key := domain + [KEY_SEPARATOR] + (role + [KEY_SEPARATOR] + principal);
            SplitN(key, KEY_SEPARATOR, 3) == [domain, role, principal] && Decode(key) == (domain, role, principal)
  {
    SplitNAt(domain, KEY_SEPARATOR, role + [KEY_SEPARATOR] + principal, 3);
    SplitNAt(role, KEY_SEPARATOR, principal, 2);
  }

  /** Decoding takes a key apart without losing anything but the separator in front of an empty third field. */
  lemma DecodeForm(key: string)
    requires KEY_SEPARATOR in key
    ensures Clean(Decode(key).0, Decode(key).1)
    ensures key == KeyText(Decode(key).0, Decode(key).1, Decode(key).2) + EmptyThirdField(key)
  {
    var domain, tail := FirstField(key);
    if KEY_SEPARATOR in tail {
      var role, principal := FirstField(tail);
      DecodeThree(domain, role, principal);
      ThreeFields(domain, role, principal);
    } else {
      DecodeTwo(domain, tail);
    }
  }

  lemma ThreeFields(domain: string, role: string, principal: string)
    ensures domain + [KEY_SEPARATOR] + (role + [KEY_SEPARATOR] + principal) ==
            KeyText(domain, role, principal) + (if principal == "" then [KEY_SEPARATOR] else "")
  {
    if principal == "" {
      assert role + [KEY_SEPARATOR] + principal == role + [KEY_SEPARATOR];
    }
  }

  function EmptyThirdField(key: string): string {
    if |SplitN(key, KEY_SEPARATOR, 3)| == 3 && Decode(key).2 == "" then [KEY_SEPARATOR] else ""
  }

  lemma DecodeOfClean(domain: string, role: string, principal: string)
    requires Clean(domain, role)
    ensures Decode(Encode(domain, role, principal)) == (domain, SortRoles(role), principal)
  {
    EncodeForm(domain, role, principal);
    SortRolesMembers(role, KEY_SEPARATOR);
    if principal == "" {
      DecodeTwo(domain, SortRoles(role));
    } else {
      DecodeThree(domain, SortRoles(role), principal);
    }
  }

  /** Decoding a key gives back the triple, with its roles sorted, exactly for clean domains and roles. */
  lemma DecodeOfEncode(domain: string, role: string, principal: string)
    ensures Decode(Encode(domain, role, principal)) == (domain, SortRoles(role), principal)
            <==> Clean(domain, role)
  {
    if Clean(domain, role) {
      DecodeOfClean(domain, role, principal);
    } else {
      EncodeForm(domain, role, principal);
      assert Encode(domain, role, principal)[|domain|] == KEY_SEPARATOR;
      DecodeForm(Encode(domain, role, principal));
      SortRolesMembers(role, KEY_SEPARATOR);
    }
  }

  /** Two clean triples share a key exactly when only the order of their roles differs. */
  lemma SameKey(domain: string, role: string, principal: string, domain': string, role': string, principal': string)
    requires Clean(domain, role) && Clean(domain', role')
    ensures Encode(domain, role, principal) == Encode(domain', role', principal')
            <==> domain == domain' && principal == principal' && SameRoles(role, role')
  {
    DecodeOfClean(domain, role, principal);
    DecodeOfClean(domain', role', principal');
    SortRolesCanonical(role, role');
  }

  /** Without cleanness two different domains can share a key. */
  lemma UncleanCollision()
    ensures Encode("a;b", "c", "") == Encode("a", "b", "c") == "a;b;c"
  {
    EncodeForm("a;b", "c", "");
    EncodeForm("a", "b", "c");
    SingleRole("b");
    SingleRole("c");
  }

  lemma SingleRole(role: string)
    requires ROLE_SEPARATOR !in role
    ensures SortRoles(role) == role
  {
    SplitWhole(role, ROLE_SEPARATOR);
    assert Sort([role]) == [role];
  }

  /** A refresh of this key stores the token under the same key again. */
  predicate Refreshable(key: string) {
    && KEY_SEPARATOR in key
    && Sorted(Split(Decode(key).1, ROLE_SEPARATOR))
    && (|SplitN(key, KEY_SEPARATOR, 3)| == 3 ==> Decode(key).2 != "")
  }

  /** A refresh decodes the key and encodes the parts again; this is when the key survives it. */
  lemma EncodeOfDecode(key: string)
    ensures var (domain, role, principal) := Decode(key);
            Encode(domain, role, principal) == key <==> Refreshable(key)
  {
    var (domain, role, principal) := Decode(key);
    EncodeForm(domain, role, principal);
    SortRolesFixed(role);
    if KEY_SEPARATOR in key {
      DecodeForm(key);
      SortRolesMembers(role, KEY_SEPARATOR);
      KeyTextInjective(domain, SortRoles(role), role, principal);
    } else {
      assert KeyText(domain, SortRoles(role), principal)[|domain|] == KEY_SEPARATOR;
    }
  }

  lemma KeyTextInjective(domain: string, roles: string, roles': string, principal: string)
    requires Clean(domain, roles) && Clean(domain, roles')
    ensures KeyText(domain, roles, principal) == KeyText(domain, roles', principal) <==> roles == roles'
    ensures KeyText(domain, roles, "") != KeyText(domain, roles', "") + [KEY_SEPARATOR]
  {
    var n := |domain| + 1;
    var text, text' := KeyText(domain, roles, principal), KeyText(domain, roles', principal);
    if principal == "" {
      assert text[n..] == roles && text'[n..] == roles';
    } else {
      assert text[n..|text| - |principal| - 1] == roles && text'[n..|text'| - |principal| - 1] == roles';
    }
    assert KeyText(domain, roles, "")[n..] == roles;
    assert (KeyText(domain, roles', "") + [KEY_SEPARATOR])[n..] == roles' + [KEY_SEPARATOR];
    assert (roles' + [KEY_SEPARATOR])[|roles'|] == KEY_SEPARATOR;
  }

  lemma CleanKeyRefreshable(domain: string, role: string, principal: string)
    requires Clean(domain, role)
    ensures Refreshable(Encode(domain, role, principal))
  {
    DecodeOfClean(domain, role, principal);
    var key := Encode(domain, role, principal);
    SortRolesCanonical(SortRoles(role), role);
    SortRolesSplit(role);
    EncodeForm(domain, SortRoles(role), principal);
    EncodeForm(domain, role, principal);
    EncodeOfDecode(key);
  }

  /** The key of the role "x;" is stored under a new key by a refresh. */
  lemma UncleanKeyMoves()
    ensures var (domain, role, principal) := Decode(Encode("d", "x;", ""));
            Encode("d", "x;", "") == "d;x;" && Encode(domain, role, principal) == "d;x"
  {
    UncleanKey();
    MovedKey();
    DecodeOfUnclean();
  }

  lemma UncleanKey()
    ensures Encode("d", "x;", "") == "d;x;"
  {
    KeyOfSingleRole("d", "x;");
  }

  lemma MovedKey()
    ensures Encode("d", "x", "") == "d;x"
  {
    KeyOfSingleRole("d", "x");
  }

  lemma KeyOfSingleRole(domain: string, role: string)
    requires ROLE_SEPARATOR !in role
    ensures Encode(domain, role, "") == domain + ";" + role
  {
    EncodeForm(domain, role, "");
    SingleRole(role);
  }

  lemma DecodeOfUnclean()
    ensures Decode("d;x;") == ("d", "x", "")
  {
    assert "x;" == "x" + [KEY_SEPARATOR] + "";
    assert "d;x;" == "d" + [KEY_SEPARATOR] + "x;";
    DecodeThree("d", "x", "");
  }
}
