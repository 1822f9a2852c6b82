/**
 * The static helpers of the identity service: session-user construction,
 * token expiry, permission checks, input validators, input sanitising and
 * grouping of permissions by category.
 */
module AuthHelpers {
  import opened Wrappers
  import opened AuthTypes
  import JsStrings
  import Seqs

  /**
   * `toSessionUser(authResponse, permissions)`: the identity and tokens of
   * the provider's answer, with the permissions given.
   */
  function ToSessionUser(r: AuthResponse, permissions: seq<string>): (u: SessionUser)
    ensures u.id == r.user.id && u.email == r.user.email && u.role == r.user.role
    ensures u.first_name == r.user.user_metadata.first_name && u.last_name == r.user.user_metadata.last_name
    ensures u.access_token == r.access_token && u.refresh_token == r.refresh_token && u.expires_at == r.expires_at
    ensures u.permissions == permissions
  {
    SessionUser(r.user.id, r.user.email, r.user.user_metadata.first_name, r.user.user_metadata.last_name,
      r.user.role, permissions, r.access_token, r.refresh_token, r.expires_at)
  }

  /** `toSessionUser(authResponse)` with the default empty permission list. */
  function ToSessionUserDefault(r: AuthResponse): (u: SessionUser)
    ensures u.permissions == [] && u == ToSessionUser(r, [])
  {
    ToSessionUser(r, [])
  }

  // ---------------------------------------------------------------------------
  // Expiry; `nowMs` is Date.now(), in milliseconds

  /** `isTokenExpired(expiresAt)`: Date.now() / 1000 >= expiresAt, in exact arithmetic. */
  predicate IsTokenExpired(nowMs: int, expiresAt: int)
  {
    nowMs >= expiresAt * 1000
  }

  /** `isTokenExpiringSoon(expiresAt)`: expiresAt - Date.now() / 1000 <= 300. */
  predicate IsTokenExpiringSoon(nowMs: int, expiresAt: int)
  {
    expiresAt * 1000 - nowMs <= 300 * 1000
  }

  /** An expired token is also expiring soon. */
  lemma ExpiredIsExpiringSoon(nowMs: int, expiresAt: int)
    requires IsTokenExpired(nowMs, expiresAt)
    ensures IsTokenExpiringSoon(nowMs, expiresAt)
  {
  }

  // ---------------------------------------------------------------------------
  // Permission checks

  /** `permissions.includes(permission)`. */
  predicate HasPermission(permissions: seq<string>, permission: string)
  {
    permission in permissions
  }

  /** `required.some(p => permissions.includes(p))`. */
  function HasAnyPermission(permissions: seq<string>, required: seq<string>): (b: bool)
    ensures b <==> exists k :: 0 <= k < |required| && required[k] in permissions
  {
    if required == [] then false
    else required[0] in permissions || HasAnyPermission(permissions, required[1..])
  }

  /** `required.every(p => permissions.includes(p))`. */
  function HasAllPermissions(permissions: seq<string>, required: seq<string>): (b: bool)
    ensures b <==> forall k :: 0 <= k < |required| ==> required[k] in permissions
  {
    if required == [] then true
    else required[0] in permissions && HasAllPermissions(permissions, required[1..])
  }

  /** An empty requirement is met by `every` and missed by `some`; otherwise all implies any. */
  lemma AllAndAny(permissions: seq<string>, required: seq<string>)
    ensures HasAllPermissions(permissions, []) && !HasAnyPermission(permissions, [])
    ensures required != [] && HasAllPermissions(permissions, required) ==> HasAnyPermission(permissions, required)
  {
    if required != [] && HasAllPermissions(permissions, required) {
      assert required[0] in permissions;
    }
  }

  datatype CrudAction = Create | Read | Update | Delete
  {
    function Name(): string
    {
      match this
      case Create => "create"
      case Read => "read"
      case Update => "update"
      case Delete => "delete"
    }
  }

  /** `canPerformCRUD(permissions, resource, action)`: the permission `resource.action` is held. */
  function CanPerformCrud(permissions: seq<string>, resource: string, action: CrudAction): (b: bool)
    ensures b <==> exists k :: 0 <= k < |permissions| && permissions[k] == resource + "." + action.Name()
  {
    HasPermission(permissions, resource + "." + action.Name())
  }

  // ---------------------------------------------------------------------------
  // Email and password validation

  /** No whitespace and no '@' in `s`. */
  ghost predicate PlainRun(s: string)
  {
    forall k :: 0 <= k < |s| ==> !JsStrings.IsWhiteSpace(s[k]) && s[k] != '@'
  }

  /**
   * The regular expression `^[^\s@]+@[^\s@]+\.[^\s@]+$` matches `e` with '@'
   * at `i` and the separating '.' at `j`.
   */
  ghost predicate EmailMatchAt(e: string, i: nat, j: nat)
  {
    && 0 < i && i + 1 < j && j + 1 < |e|
    && e[i] == '@' && e[j] == '.'
    && PlainRun(e[..i]) && PlainRun(e[i + 1..j]) && PlainRun(e[j + 1..])
  }

  ghost predicate MatchesEmailPattern(e: string)
  {
    exists i: nat, j: nat :: EmailMatchAt(e, i, j)
  }

  /** The domain part holds a '.' that is neither its first nor its last character. */
  predicate HasInnerDot(d: string)
  {
    exists k :: 0 < k < |d| - 1 && d[k] == '.'
  }

  /**
   * `isValidEmail(email)`: no whitespace, exactly one '@' with a non-empty
   * part before it, and a domain holding an inner '.'.
   */
  predicate IsValidEmail(e: string)
  {
    && (forall k :: 0 <= k < |e| ==> !JsStrings.IsWhiteSpace(e[k]))
    && match JsStrings.IndexOf(e, '@')
       case None => false
       case Some(i) => i > 0 && '@' !in e[i + 1..] && HasInnerDot(e[i + 1..])
  }

  /** The validator accepts exactly the strings the regular expression matches. */
  lemma ValidEmailMatchesPattern(e: string)
    requires IsValidEmail(e)
    ensures MatchesEmailPattern(e)
  {
    var i := JsStrings.IndexOf(e, '@').value;
    var d := e[i + 1..];
    var k :| 0 < k < |d| - 1 && d[k] == '.';
    var j := i + 1 + k;
    assert e[i + 1..j] == d[..k];
    assert e[j + 1..] == d[k + 1..];
    assert forall m :: 0 <= m < |d| ==> d[m] != '@';
    assert EmailMatchAt(e, i, j);
  }

  lemma PatternMatchIsValidEmail(e: string)
    requires MatchesEmailPattern(e)
    ensures IsValidEmail(e)
  {
    var i: nat, j: nat :| EmailMatchAt(e, i, j);
    assert forall m :: 0 <= m < i ==> e[m] == e[..i][m];
    assert forall m :: i + 1 <= m < j ==> e[m] == e[i + 1..j][m - i - 1];
    assert forall m :: j + 1 <= m < |e| ==> e[m] == e[j + 1..][m - j - 1];
    var r := JsStrings.IndexOf(e, '@');
    assert r == Some(i) by {
      assert e[i] == '@';
      assert forall m :: 0 <= m < i ==> e[m] != '@';
      assert forall m :: i < m <= |e| ==> e[..m][i] == '@';
    }
    var d := e[i + 1..];
    assert d[j - i - 1] == '.';
    assert forall m :: 0 <= m < |d| ==> d[m] == e[i + 1 + m];
  }

  /** The hand-written check accepts exactly the strings the email pattern matches. */
  lemma IsValidEmailMatchesPattern(e: string)
    ensures IsValidEmail(e) <==> MatchesEmailPattern(e)
  {
    if IsValidEmail(e) {
      ValidEmailMatchesPattern(e);
    }
    if MatchesEmailPattern(e) {
      PatternMatchIsValidEmail(e);
    }
  }

  datatype PasswordCheck = PasswordCheck(isValid: bool, message: Option<string>)

  /**
   * `isValidPassword(password)`: an empty password is missing, fewer than six
   * UTF-16 code units is too short, anything else is valid.
   */
  function IsValidPassword(password: string): (r: PasswordCheck)
    ensures r.isValid <==> JsStrings.JsLength(password) >= 6
    ensures r.isValid <==> r.message.None?
    ensures password == "" ==> r.message == Some("Password is required")
    ensures password != "" && !r.isValid ==> r.message == Some("Password must be at least 6 characters long")
  {
    if password == "" then PasswordCheck(false, Some("Password is required"))
    else if JsStrings.JsLength(password) < 6 then PasswordCheck(false, Some("Password must be at least 6 characters long"))
    else PasswordCheck(true, None)
  }

  // ---------------------------------------------------------------------------
  // sanitizeInput

  predicate NotAngle(c: char)
  {
    c != '<' && c != '>'
  }

  /** `input.trim().replace(/[<>]/g, '')`. */
  function SanitizeInput(input: string): (r: string)
    ensures forall k :: 0 <= k < |r| ==> NotAngle(r[k])
    ensures Seqs.KeepsExactly(r, JsStrings.Trim(input), NotAngle)
  {
    var r := Seqs.Filter(JsStrings.Trim(input), NotAngle);
    Seqs.FilterKeepsExactly(JsStrings.Trim(input), NotAngle);
    r
  }

  /** Without angle brackets, sanitising is trimming. */
  lemma SanitizeWithoutAngles(input: string)
    requires forall k :: 0 <= k < |input| ==> NotAngle(input[k])
    ensures SanitizeInput(input) == JsStrings.Trim(input)
  {
    var t := JsStrings.Trim(input);
    var i: nat, j: nat :| JsStrings.TrimmedAt(input, t, i, j);
    assert forall k :: 0 <= k < |t| ==> t[k] == input[i + k];
    Seqs.FilterAll(t, NotAngle);
  }

  // ---------------------------------------------------------------------------
  // groupPermissionsByCategory

  /** The category of a permission: its text before the first '.', or all of it. */
  function Category(permission: string): (c: string)
    ensures c <= permission && '.' !in c
    ensures |c| < |permission| ==> permission[|c|] == '.'
  {
    JsStrings.SplitHead(permission, '.');
    JsStrings.Split(permission, '.')[0]
  }

  /**
   * The grouping that iterating over `perms` builds: each permission is
   * appended to the list of its category, a category's list being created
   * on its first permission.
   */
  function Grouped(perms: seq<string>): map<string, seq<string>>
  {
    if perms == [] then map[]
    else
      var g := Grouped(perms[..|perms| - 1]);
      var p := perms[|perms| - 1];
      var c := Category(p);
      g[c := (if c in g then g[c] else []) + [p]]
  }

  /** The categories in the order the record's keys are created. */
  function CategoryOrder(perms: seq<string>): seq<string>
  {
    if perms == [] then []
    else
      var ks := CategoryOrder(perms[..|perms| - 1]);
      var c := Category(perms[|perms| - 1]);
      if c in ks then ks else ks + [c]
  }

  function InCategory(c: string): string -> bool
  {
    p => Category(p) == c
  }

  /** The categories listed are exactly those that occur, each once. */
  lemma {:induction false} CategoryOrderSpec(perms: seq<string>)
    ensures forall c :: c in CategoryOrder(perms) <==> exists k :: 0 <= k < |perms| && Category(perms[k]) == c
    ensures Seqs.NoDuplicates(CategoryOrder(perms))
  {
    if perms != [] {
      var init := perms[..|perms| - 1];
      var p := perms[|perms| - 1];
      CategoryOrderSpec(init);
      forall c ensures c in CategoryOrder(perms) <==> exists k :: 0 <= k < |perms| && Category(perms[k]) == c {
        if c in CategoryOrder(perms) && c != Category(p) {
          var k :| 0 <= k < |init| && Category(init[k]) == c;
          assert perms[k] == init[k];
        }
        if exists k :: 0 <= k < |perms| && Category(perms[k]) == c {
          var k :| 0 <= k < |perms| && Category(perms[k]) == c;
          if k < |init| {
            assert init[k] == perms[k];
          }
        }
      }
    }
  }

  /** The record's keys are the listed categories. */
  lemma {:induction false} GroupedKeys(perms: seq<string>)
    ensures forall c :: c in Grouped(perms) <==> c in CategoryOrder(perms)
  {
    if perms != [] {
      GroupedKeys(perms[..|perms| - 1]);
    }
  }

  /** The group of a category is exactly the permissions of that category, in input order. */
  lemma {:induction false} GroupedValues(perms: seq<string>)
    ensures forall c :: c in Grouped(perms) ==> Grouped(perms)[c] == Seqs.Filter(perms, InCategory(c))
  {
    if perms != [] {
      var init := perms[..|perms| - 1];
      var p := perms[|perms| - 1];
      GroupedValues(init);
      GroupedKeys(init);
      CategoryOrderSpec(init);
      assert perms == init + [p];
      forall c | c in Grouped(perms) ensures Grouped(perms)[c] == Seqs.Filter(perms, InCategory(c)) {
        Seqs.FilterConcat(init, [p], InCategory(c));
        if c !in Grouped(init) {
          EmptyGroup(init, c);
        }
      }
    }
  }

  /** A category with no key has no permissions. */
  lemma EmptyGroup(perms: seq<string>, c: string)
    requires forall c :: c in CategoryOrder(perms) <==> exists k :: 0 <= k < |perms| && Category(perms[k]) == c
    requires c !in CategoryOrder(perms)
    ensures Seqs.Filter(perms, InCategory(c)) == []
  {
    assert forall k :: 0 <= k < |perms| ==> !InCategory(c)(perms[k]);
    Seqs.FilterNone(perms, InCategory(c));
  }

  /** The grouping as a whole: keys, groups, key order. */
  lemma GroupedSpec(perms: seq<string>)
    ensures forall c :: c in Grouped(perms) <==> c in CategoryOrder(perms)
    ensures forall c :: c in Grouped(perms) ==> Grouped(perms)[c] == Seqs.Filter(perms, InCategory(c))
    ensures forall c :: c in CategoryOrder(perms) <==> exists k :: 0 <= k < |perms| && Category(perms[k]) == c
    ensures Seqs.NoDuplicates(CategoryOrder(perms))
  {
    GroupedKeys(perms);
    GroupedValues(perms);
    CategoryOrderSpec(perms);
  }

  /** The sum of the sizes of the groups listed in `keys`. */
  function SumSizes(g: map<string, seq<string>>, keys: seq<string>): nat
    requires forall k :: 0 <= k < |keys| ==> keys[k] in g
  {
    if keys == [] then 0 else |g[keys[0]]| + SumSizes(g, keys[1..])
  }

  lemma {:induction false} SumSizesUpdate(g: map<string, seq<string>>, keys: seq<string>, c: string, v: seq<string>)
    requires forall k :: 0 <= k < |keys| ==> keys[k] in g
    requires Seqs.NoDuplicates(keys) && c in keys
    ensures SumSizes(g[c := v], keys) == SumSizes(g, keys) - |g[c]| + |v|
  {
    if keys[0] != c {
      SumSizesUpdate(g, keys[1..], c, v);
    } else {
      SumSizesUnchanged(g, keys[1..], c, v);
    }
  }

  lemma {:induction false} SumSizesUnchanged(g: map<string, seq<string>>, keys: seq<string>, c: string, v: seq<string>)
    requires forall k :: 0 <= k < |keys| ==> keys[k] in g
    requires c !in keys
    ensures SumSizes(g[c := v], keys) == SumSizes(g, keys)
  {
    if keys != [] {
      SumSizesUnchanged(g, keys[1..], c, v);
    }
  }

  lemma {:induction false} SumSizesAppend(g: map<string, seq<string>>, keys: seq<string>, c: string)
    requires forall k :: 0 <= k < |keys| ==> keys[k] in g
    requires c in g
    ensures SumSizes(g, keys + [c]) == SumSizes(g, keys) + |g[c]|
  {
    if keys != [] {
      assert (keys + [c])[1..] == keys[1..] + [c];
      SumSizesAppend(g, keys[1..], c);
    }
  }

  /** The group sizes add up to the number of permissions. */
  lemma {:induction false} GroupSizesSum(perms: seq<string>)
    ensures forall k :: 0 <= k < |CategoryOrder(perms)| ==> CategoryOrder(perms)[k] in Grouped(perms)
    ensures SumSizes(Grouped(perms), CategoryOrder(perms)) == |perms|
  {
    GroupedKeys(perms);
    if perms != [] {
      var init := perms[..|perms| - 1];
      GroupSizesSum(init);
      GroupedKeys(init);
      CategoryOrderSpec(init);
      if Category(perms[|perms| - 1]) in CategoryOrder(init) {
        SumAfterKnownCategory(perms);
      } else {
        SumAfterNewCategory(perms);
      }
    }
  }

  /** One more permission of a category already listed adds one to that group. */
  lemma SumAfterKnownCategory(perms: seq<string>)
    requires perms != []
    requires var init := perms[..|perms| - 1];
             && (forall c :: c in Grouped(init) <==> c in CategoryOrder(init))
             && Seqs.NoDuplicates(CategoryOrder(init))
             && SumSizes(Grouped(init), CategoryOrder(init)) == |init|
             && Category(perms[|perms| - 1]) in CategoryOrder(init)
    ensures SumSizes(Grouped(perms), CategoryOrder(perms)) == |perms|
  {
    var init := perms[..|perms| - 1];
    var p := perms[|perms| - 1];
    var c := Category(p);
    var g := Grouped(init);
    assert Grouped(perms) == g[c := g[c] + [p]];
    assert CategoryOrder(perms) == CategoryOrder(init);
    SumSizesUpdate(g, CategoryOrder(init), c, g[c] + [p]);
  }

  /** A permission of a new category adds a group of one at the end. */
  lemma SumAfterNewCategory(perms: seq<string>)
    requires perms != []
    requires var init := perms[..|perms| - 1];
             && (forall c :: c in Grouped(init) <==> c in CategoryOrder(init))
             && SumSizes(Grouped(init), CategoryOrder(init)) == |init|
             && Category(perms[|perms| - 1]) !in CategoryOrder(init)
    ensures SumSizes(Grouped(perms), CategoryOrder(perms)) == |perms|
  {
    var init := perms[..|perms| - 1];
    var p := perms[|perms| - 1];
    var c := Category(p);
    var g := Grouped(init);
    var ks := CategoryOrder(init);
    assert c !in g;
    assert [] + [p] == [p];
    assert Grouped(perms) == g[c := [p]];
    assert CategoryOrder(perms) == ks + [c];
    SumSizesUnchanged(g, ks, c, [p]);
    SumSizesAppend(g[c := [p]], ks, c);
  }

  /**
   * `groupPermissionsByCategory(permissions)`: builds the record in place,
   * one permission at a time; `keys` is the record's key order.
   */
  method GroupPermissionsByCategory(permissions: seq<string>) returns (grouped: map<string, seq<string>>, keys: seq<string>)
    ensures grouped == Grouped(permissions) && keys == CategoryOrder(permissions)
    ensures forall c :: c in grouped ==> grouped[c] == Seqs.Filter(permissions, InCategory(c))
    ensures forall k :: 0 <= k < |keys| ==> keys[k] in grouped
    ensures SumSizes(grouped, keys) == |permissions|
  {
    grouped, keys := map[], [];
    var i := 0;
    while i < |permissions|
      invariant 0 <= i <= |permissions|
      invariant grouped == Grouped(permissions[..i]) && keys == CategoryOrder(permissions[..i])
      invariant forall c :: c in grouped <==> c in keys
    {
      var p := permissions[i];
      var c := Category(p);
      assert permissions[..i + 1][..i] == permissions[..i];
      GroupedKeys(permissions[..i]);
      if c !in grouped {
        grouped := grouped[c := []];
        keys := keys + [c];
      }
      grouped := grouped[c := grouped[c] + [p]];
      i := i + 1;
    }
    assert permissions[..i] == permissions;
    GroupedSpec(permissions);
    GroupSizesSum(permissions);
  }

  /** A held CRUD permission on a dot-free resource sits in that resource's group. */
  lemma CrudPermissionIsGrouped(permissions: seq<string>, resource: string, action: CrudAction)
    requires '.' !in resource && CanPerformCrud(permissions, resource, action)
    ensures resource in Grouped(permissions)
    ensures resource + "." + action.Name() in Grouped(permissions)[resource]
  {
    var perm := resource + "." + action.Name();
    JsStrings.SplitAt(resource, action.Name(), '.');
    assert perm == resource + ['.'] + action.Name();
    assert Category(perm) == resource;
    GroupedSpec(permissions);
    var k :| 0 <= k < |permissions| && permissions[k] == perm;
    assert InCategory(resource)(permissions[k]);
  }
}
