/** The names that sidecars and their renamed volumes get never collide. */
module SidecarNames {
  import opened PodVolumes
  import opened Sidecar
  import opened Strings

  // ---------- names ----------

  function ContainerNames(containers: seq<PodContainer>): (names: seq<string>)
    ensures |names| == |containers|
    ensures forall i :: 0 <= i < |names| ==> names[i] == containers[i].name
  {
    seq(|containers|, i requires 0 <= i < |containers| => containers[i].name)
  }

  /** The name of the sidecar for the pair with number `k`. */
  function SidecarName(k: nat): (r: string) {
    if k == 0 then MOUNT_CONTAINER else MOUNT_CONTAINER + "-" + Itoa(k)
  }

  predicate Reserved(name: string) {
    HasPrefix(name, MOUNT_CONTAINER)
  }

  lemma SidecarNameInjective(j: nat, k: nat)
    requires SidecarName(j) == SidecarName(k)
    ensures j == k
  {
    if j > 0 && k > 0 {
      ItoaAfter(MOUNT_CONTAINER + "-", j, k);
    }
  }

  lemma SidecarNamesDiffer(j: nat, k: nat)
    requires j != k
    ensures SidecarName(j) != SidecarName(k)
  {
    if SidecarName(j) == SidecarName(k) {
      SidecarNameInjective(j, k);
    }
  }

  lemma RoleNamePlain(role: Role)
    ensures RoleName(role) != "" && !IsDigit(RoleName(role)[0]) && !Reserved(RoleName(role))
  {
    NameTag(role);
    var name := RoleName(role);
    if role.JfsDir? || role.CheckMount? {
      assert name[4] != 'm';
    } else {
      assert name[0] != 'j';
      assert !IsDigit(name[0]) by {
        RoleHead(role);
      }
    }
  }

  lemma RoleHead(role: Role)
    ensures RoleName(role) != "" && RoleName(role)[0] in ['r', 'i', 'c', 'j', 'u', 'h']
    ensures RoleName(role)[0] == 'j' ==> role.JfsDir? || role.CheckMount?
  {
  }

  /** The first "-" ends the first part of both. */
  lemma CutUnique(a: string, x: string, b: string, y: string)
    requires a + ['-'] + x == b + ['-'] + y && '-' !in a && '-' !in b
    ensures a == b && x == y
  {
    SplitHead(a, '-', x);
    SplitHead(b, '-', y);
    assert ([a] + Split(x, '-'))[0] == ([b] + Split(y, '-'))[0];
    assert (a + ['-'] + x)[|a| + 1..] == x && (b + ['-'] + y)[|b| + 1..] == y;
  }

  function Rest(k: nat, name: string): (r: string) {
    if k == 0 then name else Itoa(k) + ['-'] + name
  }

  lemma RenamedForm(k: nat, name: string)
    ensures SidecarName(k) + "-" + name == (MOUNT_CONTAINER + "-") + Rest(k, name)
  {
  }

  lemma SamePrefix(prefix: string, a: string, b: string)
    requires prefix + a == prefix + b
    ensures a == b
  {
    assert (prefix + a)[|prefix|..] == a && (prefix + b)[|prefix|..] == b;
  }

  lemma DigitsFirst(k: nat, name: string)
    requires k > 0
    ensures '-' !in Itoa(k) && IsDigit(Rest(k, name)[0])
  {
    assert Rest(k, name)[0] == Itoa(k)[0] && Itoa(k)[0] in Itoa(k);
  }

  lemma RestInjective(j: nat, r: Role, k: nat, q: Role)
    requires Rest(j, RoleName(r)) == Rest(k, RoleName(q))
    ensures j == k && RoleName(r) == RoleName(q)
  {
    RoleNamePlain(r);
    RoleNamePlain(q);
    if j > 0 {
      DigitsFirst(j, RoleName(r));
    }
    if k > 0 {
      DigitsFirst(k, RoleName(q));
    }
    if j > 0 && k > 0 {
      CutUnique(Itoa(j), RoleName(r), Itoa(k), RoleName(q));
      ItoaInjective(j, k);
    }
  }

  /** The names of renamed volumes of different sidecars differ. */
  lemma RenamedInjective(j: nat, r: Role, k: nat, q: Role)
    requires SidecarName(j) + "-" + RoleName(r) == SidecarName(k) + "-" + RoleName(q)
    ensures j == k && RoleName(r) == RoleName(q)
  {
    RenamedForm(j, RoleName(r));
    RenamedForm(k, RoleName(q));
    SamePrefix(MOUNT_CONTAINER + "-", Rest(j, RoleName(r)), Rest(k, RoleName(q)));
    RestInjective(j, r, k, q);
  }

  lemma RenamedReserved(k: nat, name: string)
    ensures Reserved(SidecarName(k) + "-" + name)
  {
    var rest := if k == 0 then "-" + name else "-" + Itoa(k) + "-" + name;
    assert SidecarName(k) + "-" + name == MOUNT_CONTAINER + rest;
  }
}
