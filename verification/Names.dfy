/** The tenant-id language and the names the control plane derives from an id. */
module Names {

  datatype Option<+T> = None | Some(value: T)

  type TenantId = string

  predicate Lower(c: char) { 'a' <= c <= 'z' }

  predicate IdChar(c: char) { Lower(c) || '0' <= c <= '9' }

  /** `^[a-z][a-z0-9]{0,15}\Z`: no stripping, so blanks and newlines fail closed. */
  predicate ValidId(s: string) {
    1 <= |s| <= 16 && Lower(s[0]) && forall i | 0 <= i < |s| :: IdChar(s[i])
  }

  /** The language of ids, built up letter by letter. */
  lemma IdsAreBuilt(s: string, c: char)
    ensures !ValidId("")
    ensures ValidId([c]) <==> 'a' <= c <= 'z'
    ensures s != "" ==> (ValidId(s + [c]) <==> ValidId(s) && |s| < 16 && ('a' <= c <= 'z' || '0' <= c <= '9'))
  {
    if s != "" {
      assert (s + [c])[0] == s[0] && (s + [c])[|s|] == c;
      if ValidId(s + [c]) {
        forall i | 0 <= i < |s| ensures IdChar(s[i]) {
          assert (s + [c])[i] == s[i];
        }
      }
    }
  }

  /** Python truthiness of an optional text column. */
  predicate Truthy(o: Option<string>) { o.Some? && o.value != "" }

  function DbRoleName(id: TenantId): string { "tenant_" + id }

  function PolicyName(id: TenantId): string { "tenant_" + id + "_isolation" }

  function NamespaceName(id: TenantId): string { "tenant-" + id }

  function SecretName(prefix: string, id: TenantId): string { prefix + "/rds/tenant-" + id }

  function IamRoleName(prefix: string, id: TenantId): string { prefix + "-tenant-" + id }

  function InlinePolicyName(prefix: string, id: TenantId): string { prefix + "-tenant-" + id + "-secrets" }

  function RoleArn(account: string, roleName: string): string { "arn:aws:iam::" + account + ":role/" + roleName }

  /** The names, letter by letter. */
  lemma NamesAreSpelled(prefix: string, account: string, id: TenantId)
    ensures DbRoleName(id) == "tenant_" + id && PolicyName(id) == "tenant_" + id + "_isolation"
    ensures NamespaceName(id) == "tenant-" + id && SecretName(prefix, id) == prefix + "/rds/tenant-" + id
    ensures IamRoleName(prefix, id) == prefix + "-tenant-" + id
    ensures InlinePolicyName(prefix, id) == prefix + "-tenant-" + id + "-secrets"
    ensures RoleArn(account, IamRoleName(prefix, id)) == "arn:aws:iam::" + account + ":role/" + prefix + "-tenant-" + id
  {
    assert ("arn:aws:iam::" + account + ":role/") + (prefix + "-tenant-" + id)
        == "arn:aws:iam::" + account + ":role/" + prefix + "-tenant-" + id;
  }

  /** The path under which a tenant is served. */
  lemma PathOfTenant(url: string, id: TenantId)
    ensures "/" + NamespaceName(id) == "/tenant-" + id
    ensures url + "/" + NamespaceName(id) == url + "/tenant-" + id
  {
  }

  lemma SamePrefix(p: string, a: string, b: string)
    requires p + a == p + b
    ensures a == b
  {
    assert a == (p + a)[|p|..] == (p + b)[|p|..] == b;
  }

  lemma SameSuffix(a: string, b: string, q: string)
    requires a + q == b + q
    ensures a == b
  {
    assert |a| == |b|;
    assert a == (a + q)[..|a|] == (b + q)[..|b|] == b;
  }

  /** Two tenants never share a role, policy, namespace, secret or IAM role name. */
  lemma NamesAreInjective(prefix: string, a: TenantId, b: TenantId)
    requires || DbRoleName(a) == DbRoleName(b) || PolicyName(a) == PolicyName(b)
             || NamespaceName(a) == NamespaceName(b) || SecretName(prefix, a) == SecretName(prefix, b)
             || IamRoleName(prefix, a) == IamRoleName(prefix, b)
             || InlinePolicyName(prefix, a) == InlinePolicyName(prefix, b)
    ensures a == b
  {
    if DbRoleName(a) == DbRoleName(b) {
      SamePrefix("tenant_", a, b);
    } else if PolicyName(a) == PolicyName(b) {
      SameSuffix("tenant_" + a, "tenant_" + b, "_isolation");
      SamePrefix("tenant_", a, b);
    } else if NamespaceName(a) == NamespaceName(b) {
      SamePrefix("tenant-", a, b);
    } else if SecretName(prefix, a) == SecretName(prefix, b) {
      SamePrefix(prefix + "/rds/tenant-", a, b);
    } else if IamRoleName(prefix, a) == IamRoleName(prefix, b) {
      SamePrefix(prefix + "-tenant-", a, b);
    } else {
      SameSuffix(prefix + "-tenant-" + a, prefix + "-tenant-" + b, "-secrets");
      SamePrefix(prefix + "-tenant-", a, b);
    }
  }

  /** `arn.rsplit("/", 1)[-1]`. */
  function LastSegment(s: string): string {
    if |s| == 0 || s[|s| - 1] == '/' then "" else LastSegment(s[..|s| - 1]) + [s[|s| - 1]]
  }

  lemma {:induction false} LastSegmentAfterSlash(p: string, name: string)
    requires '/' !in name
    ensures LastSegment(p + "/" + name) == name
  {
    var s := p + "/" + name;
    if |name| == 0 {
      assert s[|s| - 1] == '/';
    } else {
      var init, last := name[..|name| - 1], name[|name| - 1];
      assert name == init + [last];
      assert s[..|s| - 1] == p + "/" + init;
      assert s[|s| - 1] == last;
      assert last in name;
      LastSegmentAfterSlash(p, init);
    }
  }

  /** The role name a teardown uses: taken from the stored ARN when it looks like one. */
  function TeardownRoleName(prefix: string, id: TenantId, arn: Option<string>): string {
    if Truthy(arn) && "arn:" <= arn.value then LastSegment(arn.value) else IamRoleName(prefix, id)
  }

  /** Teardown finds the very role the identity step created. */
  lemma TeardownFindsCreatedRole(prefix: string, account: string, id: TenantId)
    requires ValidId(id) && '/' !in prefix
    ensures TeardownRoleName(prefix, id, Some(RoleArn(account, IamRoleName(prefix, id)))) == IamRoleName(prefix, id)
  {
    var name := IamRoleName(prefix, id);
    var head := "arn:aws:iam::" + account + ":role";
    assert RoleArn(account, name) == head + "/" + name;
    forall c | c in name ensures c != '/' {
      assert c in prefix || c in "-tenant-" || c in id;
      if c in id {
        var i :| 0 <= i < |id| && id[i] == c;
        assert IdChar(id[i]);
      }
    }
    LastSegmentAfterSlash(head, name);
  }

  /** The elements of a set, each once, in some order. */
  method Enumerate<T(==)>(s: set<T>) returns (q: seq<T>)
    ensures forall x :: x in q <==> x in s
    ensures |q| == |s| && forall i, j | 0 <= i < j < |q| :: q[i] != q[j]
  {
    q := [];
    var todo := s;
    while todo != {}
      invariant todo <= s && |q| + |todo| == |s|
      invariant forall x :: x in q <==> x in s && x !in todo
      invariant forall i, j | 0 <= i < j < |q| :: q[i] != q[j]
      decreases |todo|
    {
      var x :| x in todo;
      q := q + [x];
      todo := todo - {x};
    }
  }

  // ---- the order of a sorted listing ----

  /** Strings in dictionary order. */
  predicate Before(a: string, b: string) {
    b != "" && (a == "" || a[0] < b[0] || (a[0] == b[0] && Before(a[1..], b[1..])))
  }

  lemma {:induction false} BeforeIsTotal(a: string, b: string)
    ensures a == b || Before(a, b) || Before(b, a)
    ensures !(Before(a, b) && Before(b, a)) && !Before(a, a)
  {
    if a != "" && b != "" && a[0] == b[0] {
      BeforeIsTotal(a[1..], b[1..]);
      assert a == [a[0]] + a[1..] && b == [b[0]] + b[1..];
    }
    if a != "" {
      BeforeIsTotal(a[1..], a[1..]);
    }
  }

  lemma {:induction false} BeforeIsTransitive(a: string, b: string, c: string)
    requires Before(a, b) && Before(b, c)
    ensures Before(a, c)
  {
    if a != "" && a[0] == b[0] && b[0] == c[0] {
      BeforeIsTransitive(a[1..], b[1..], c[1..]);
    }
  }

  predicate IsLeast(s: set<string>, t: string) { t in s && forall u | u in s :: u == t || Before(t, u) }

  method TakeLeast(s: set<string>) returns (t: string)
    requires s != {}
    ensures IsLeast(s, t)
  {
    t :| t in s;
    var todo := s - {t};
    while todo != {}
      invariant todo <= s && IsLeast(s - todo, t)
      decreases |todo|
    {
      var u :| u in todo;
      BeforeIsTotal(t, u);
      if Before(u, t) {
        forall v | v in s - todo && v != t ensures Before(u, v) {
          BeforeIsTransitive(u, t, v);
        }
        t := u;
      }
      todo := todo - {u};
    }
    assert s - todo == s;
  }

  lemma {:induction false} LeastExists(s: set<string>)
    requires s != {}
    ensures exists t :: IsLeast(s, t)
    decreases |s|
  {
    var u :| u in s;
    var rest := s - {u};
    if rest == {} {
      assert s == {u};
      assert IsLeast(s, u);
    } else {
      LeastExists(rest);
      var t :| IsLeast(rest, t);
      BeforeIsTotal(t, u);
      if Before(t, u) {
        assert IsLeast(s, t);
      } else {
        forall v | v in s && v != u ensures Before(u, v) {
          if v != t {
            BeforeIsTransitive(u, t, v);
          }
        }
        assert IsLeast(s, u);
      }
    }
  }

  ghost function Least(s: set<string>): (t: string)
    requires s != {}
    ensures IsLeast(s, t)
  {
    LeastExists(s);
    var t :| IsLeast(s, t);
    t
  }

  lemma LeastIsUnique(s: set<string>, t: string, u: string)
    requires IsLeast(s, t) && IsLeast(s, u)
    ensures t == u
  {
    BeforeIsTotal(t, u);
  }
}
