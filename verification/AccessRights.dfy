/**
 Access rights of a Gerrit project (pkg/client/gerrit/project_access.go).

 A request body and the stored rights share one three-level shape: section (ref pattern), permission with a
 label, rule per group. `Built` is the tree the source builds from a flat list; `Added`, `Removed` and
 `Updated` are the documented effect of POST /projects/{name}/access on the server: removals at the finest
 granularity given, then cleanup of what became empty, then additions.
 */
module AccessRights {
  import opened Common

  datatype AccessInfo = AccessInfo(
    refPattern: string, permissionName: string, permissionLabel: string, groupName: string,
    action: string, force: bool, min: int, max: int)

  datatype GroupPermissions = GroupPermissions(min: int, max: int, force: bool, action: string, modified: bool, added: bool)

  /** A rule as the server stores it. */
  datatype Rule = Rule(min: int, max: int, force: bool, action: string)

  datatype Permission<R> = Permission(labelText: string, rules: map<string, R>)

  datatype Reference<R> = Reference(permissions: map<string, Permission<R>>)

  type Tree<R> = map<string, Reference<R>>

  type Request = Tree<GroupPermissions>

  type Rights = Tree<Rule>

  // ---------- Looking into a tree ----------

  function PermissionAt<R>(t: Tree<R>, r: string, p: string): Option<Permission<R>> {
    if r in t && p in t[r].permissions then Some(t[r].permissions[p]) else None
  }

  function LabelAt<R>(t: Tree<R>, r: string, p: string): Option<string> {
    var q := PermissionAt(t, r, p);
    if q.Some? then Some(q.value.labelText) else None
  }

  function RuleAt<R>(t: Tree<R>, r: string, p: string, g: string): Option<R> {
    var q := PermissionAt(t, r, p);
    if q.Some? && g in q.value.rules then Some(q.value.rules[g]) else None
  }

  /** No section without permissions and no permission without rules. */
  ghost predicate NoEmpty<R>(t: Tree<R>) {
    && (forall r | r in t :: t[r].permissions != map[])
    && (forall r, p | r in t && p in t[r].permissions :: t[r].permissions[p].rules != map[])
  }

  /** Trees without empty parts are determined by their labels and rules. */
  lemma SameTree<R>(a: Tree<R>, b: Tree<R>)
    requires NoEmpty(a) && NoEmpty(b)
    requires forall r, p :: LabelAt(a, r, p) == LabelAt(b, r, p)
    requires forall r, p, g :: RuleAt(a, r, p, g) == RuleAt(b, r, p, g)
    ensures a == b
  {
    SubTree(a, b);
    SubTree(b, a);
    assert a.Keys == b.Keys;
  }

  lemma SubTree<R>(a: Tree<R>, b: Tree<R>)
    requires NoEmpty(a) && NoEmpty(b)
    requires forall r, p :: LabelAt(a, r, p) == LabelAt(b, r, p)
    requires forall r, p, g :: RuleAt(a, r, p, g) == RuleAt(b, r, p, g)
    ensures forall r | r in a :: r in b && a[r] == b[r]
  {
    forall r | r in a ensures r in b && a[r] == b[r] {
      var p0 :| p0 in a[r].permissions;
      assert LabelAt(a, r, p0).Some? && LabelAt(b, r, p0).Some?;
      forall p ensures p in a[r].permissions <==> p in b[r].permissions {
        assert LabelAt(a, r, p) == LabelAt(b, r, p);
      }
      forall p | p in a[r].permissions ensures a[r].permissions[p] == b[r].permissions[p] {
        SamePermission(a, b, r, p);
      }
      assert a[r].permissions == b[r].permissions;
    }
  }

  lemma SamePermission<R>(a: Tree<R>, b: Tree<R>, r: string, p: string)
    requires PermissionAt(a, r, p).Some? && PermissionAt(b, r, p).Some?
    requires LabelAt(a, r, p) == LabelAt(b, r, p)
    requires forall g :: RuleAt(a, r, p, g) == RuleAt(b, r, p, g)
    ensures PermissionAt(a, r, p) == PermissionAt(b, r, p)
  {
    var x, y := a[r].permissions[p].rules, b[r].permissions[p].rules;
    forall g ensures g in x <==> g in y {
      assert RuleAt(a, r, p, g) == RuleAt(b, r, p, g);
    }
    forall g | g in x ensures x[g] == y[g] {
      assert RuleAt(a, r, p, g) == RuleAt(b, r, p, g);
    }
    assert x == y;
  }

  // ---------- Building the request ----------

  function ToGroupPermissions(e: AccessInfo, added: bool, modified: bool): GroupPermissions {
    GroupPermissions(e.min, e.max, e.force, e.action, modified, added)
  }

  function WithSection(t: Request, e: AccessInfo): Request {
    if e.refPattern in t then t else t[e.refPattern := Reference(map[])]
  }

  function WithPermission(t: Request, e: AccessInfo): Request
    requires e.refPattern in t
  {
    var permissions := t[e.refPattern].permissions;
    if e.permissionName in permissions then t
    else t[e.refPattern := Reference(permissions[e.permissionName := Permission(e.permissionLabel, map[])])]
  }

  function WithRule(t: Request, e: AccessInfo, added: bool, modified: bool): Request
    requires PermissionAt(t, e.refPattern, e.permissionName).Some?
  {
    var permissions := t[e.refPattern].permissions;
    var permission := permissions[e.permissionName];
    if e.groupName in permission.rules then t
    else
      var rules := permission.rules[e.groupName := ToGroupPermissions(e, added, modified)];
      t[e.refPattern := Reference(permissions[e.permissionName := permission.(rules := rules)])]
  }

  /** One turn of the loop: create the missing levels, never overwrite a rule. */
  function Insert(t: Request, e: AccessInfo, added: bool, modified: bool): Request {
    WithRule(WithPermission(WithSection(t, e), e), e, added, modified)
  }

  function Built(l: seq<AccessInfo>, added: bool, modified: bool): Request {
    if l == [] then map[] else Insert(Built(l[..|l| - 1], added, modified), l[|l| - 1], added, modified)
  }

  method GenerateSetAccessRequest(permissions: seq<AccessInfo>, added: bool, modified: bool) returns (refs: Request)
    ensures refs == Built(permissions, added, modified)
  {
    refs := map[];
    for i := 0 to |permissions|
      invariant refs == Built(permissions[..i], added, modified)
    {
      var perm := permissions[i];
      assert permissions[..i + 1][..i] == permissions[..i];
      if perm.refPattern !in refs {
        var ref := Reference(map[]);
        refs := refs[perm.refPattern := ref];
      }
      if perm.permissionName !in refs[perm.refPattern].permissions {
        var permName := Permission(perm.permissionLabel, map[]);
        refs := refs[perm.refPattern := Reference(refs[perm.refPattern].permissions[perm.permissionName := permName])];
      }
      var permission := refs[perm.refPattern].permissions[perm.permissionName];
      if perm.groupName !in permission.rules {
        var groupPerm := GroupPermissions(perm.min, perm.max, perm.force, perm.action, modified, added);
        permission := permission.(rules := permission.rules[perm.groupName := groupPerm]);
        refs := refs[perm.refPattern := Reference(refs[perm.refPattern].permissions[perm.permissionName := permission])];
      }
    }
    assert permissions[..|permissions|] == permissions;
  }

  // ---------- What the request says, as a flat relation ----------

  predicate SamePermissionKey(e: AccessInfo, r: string, p: string) {
    e.refPattern == r && e.permissionName == p
  }

  predicate SameRuleKey(e: AccessInfo, r: string, p: string, g: string) {
    SamePermissionKey(e, r, p) && e.groupName == g
  }

  /** The first entry for a (ref, permission, group). */
  function FirstRule(l: seq<AccessInfo>, r: string, p: string, g: string): Option<AccessInfo> {
    if l == [] then None else if SameRuleKey(l[0], r, p, g) then Some(l[0]) else FirstRule(l[1..], r, p, g)
  }

  /** The first entry for a (ref, permission). */
  function FirstPermission(l: seq<AccessInfo>, r: string, p: string): Option<AccessInfo> {
    if l == [] then None else if SamePermissionKey(l[0], r, p) then Some(l[0]) else FirstPermission(l[1..], r, p)
  }

  predicate Listed(l: seq<AccessInfo>, r: string, p: string, g: string) {
    exists e :: e in l && SameRuleKey(e, r, p, g)
  }

  lemma {:induction false} FirstRuleOfConcat(l: seq<AccessInfo>, m: seq<AccessInfo>, r: string, p: string, g: string)
    ensures FirstRule(l + m, r, p, g) == if FirstRule(l, r, p, g).Some? then FirstRule(l, r, p, g) else FirstRule(m, r, p, g)
  {
    if l == [] {
      assert l + m == m;
    } else {
      assert (l + m)[1..] == l[1..] + m;
      FirstRuleOfConcat(l[1..], m, r, p, g);
    }
  }

  lemma {:induction false} FirstPermissionOfConcat(l: seq<AccessInfo>, m: seq<AccessInfo>, r: string, p: string)
    ensures FirstPermission(l + m, r, p)
         == if FirstPermission(l, r, p).Some? then FirstPermission(l, r, p) else FirstPermission(m, r, p)
  {
    if l == [] {
      assert l + m == m;
    } else {
      assert (l + m)[1..] == l[1..] + m;
      FirstPermissionOfConcat(l[1..], m, r, p);
    }
  }

  lemma {:induction false} FirstRuleIsListed(l: seq<AccessInfo>, r: string, p: string, g: string)
    ensures FirstRule(l, r, p, g).Some? <==> Listed(l, r, p, g)
    ensures FirstRule(l, r, p, g).Some? ==> FirstRule(l, r, p, g).value in l && SameRuleKey(FirstRule(l, r, p, g).value, r, p, g)
  {
    if l != [] {
      FirstRuleIsListed(l[1..], r, p, g);
      assert l == [l[0]] + l[1..];
    }
  }

  lemma {:induction false} FirstPermissionIsListed(l: seq<AccessInfo>, r: string, p: string)
    ensures FirstPermission(l, r, p).Some? <==> exists e :: e in l && SamePermissionKey(e, r, p)
    ensures FirstPermission(l, r, p).Some? ==> FirstPermission(l, r, p).value in l && SamePermissionKey(FirstPermission(l, r, p).value, r, p)
  {
    if l != [] {
      FirstPermissionIsListed(l[1..], r, p);
      assert l == [l[0]] + l[1..];
    }
  }

  lemma InsertLookups(t: Request, e: AccessInfo, added: bool, modified: bool, r: string, p: string, g: string)
    ensures RuleAt(Insert(t, e, added, modified), r, p, g)
         == if RuleAt(t, r, p, g).Some? then RuleAt(t, r, p, g)
            else if SameRuleKey(e, r, p, g) then Some(ToGroupPermissions(e, added, modified)) else None
    ensures LabelAt(Insert(t, e, added, modified), r, p)
         == if LabelAt(t, r, p).Some? then LabelAt(t, r, p)
            else if SamePermissionKey(e, r, p) then Some(e.permissionLabel) else None
  {
  }

  lemma InsertNoEmpty(t: Request, e: AccessInfo, added: bool, modified: bool)
    requires NoEmpty(t)
    ensures NoEmpty(Insert(t, e, added, modified))
  {
    var u := Insert(t, e, added, modified);
    assert e.permissionName in u[e.refPattern].permissions;
    assert e.groupName in u[e.refPattern].permissions[e.permissionName].rules;
    forall r, p | r in u && p in u[r].permissions ensures u[r].permissions[p].rules != map[] {
      assert (r == e.refPattern && p == e.permissionName) || (r in t && p in t[r].permissions);
    }
  }

  /** The built request is the first-wins reading of the list, and it has no empty part. */
  lemma {:induction false} BuiltIsFirstWins(l: seq<AccessInfo>, added: bool, modified: bool, r: string, p: string, g: string)
    ensures RuleAt(Built(l, added, modified), r, p, g)
         == if FirstRule(l, r, p, g).None? then None else Some(ToGroupPermissions(FirstRule(l, r, p, g).value, added, modified))
    ensures LabelAt(Built(l, added, modified), r, p)
         == if FirstPermission(l, r, p).None? then None else Some(FirstPermission(l, r, p).value.permissionLabel)
  {
    if l != [] {
      var init, e := l[..|l| - 1], l[|l| - 1];
      assert l == init + [e];
      BuiltIsFirstWins(init, added, modified, r, p, g);
      InsertLookups(Built(init, added, modified), e, added, modified, r, p, g);
      FirstRuleOfConcat(init, [e], r, p, g);
      FirstPermissionOfConcat(init, [e], r, p);
      assert [e][1..] == [];
      hide Insert, RuleAt, LabelAt;
    }
  }

  lemma {:induction false} BuiltHasNoEmptyPart(l: seq<AccessInfo>, added: bool, modified: bool)
    ensures NoEmpty(Built(l, added, modified))
  {
    if l != [] {
      BuiltHasNoEmptyPart(l[..|l| - 1], added, modified);
      InsertNoEmpty(Built(l[..|l| - 1], added, modified), l[|l| - 1], added, modified);
    }
  }

  // ---------- Concatenation and order ----------

  function EmptyOr<R>(t: Tree<R>, r: string): map<string, Permission<R>> {
    if r in t then t[r].permissions else map[]
  }

  function MergedPermission<R>(a: Permission<R>, b: Permission<R>): Permission<R> {
    Permission(a.labelText, b.rules + a.rules)
  }

  /** Left-biased merge of two trees, level by level. */
  function LeftMerge<R>(a: Tree<R>, b: Tree<R>): Tree<R> {
    map r | r in a.Keys + b.Keys ::
      Reference(map p | p in EmptyOr(a, r).Keys + EmptyOr(b, r).Keys ::
        if PermissionAt(a, r, p).None? then EmptyOr(b, r)[p]
        else if PermissionAt(b, r, p).None? then EmptyOr(a, r)[p]
        else MergedPermission(EmptyOr(a, r)[p], EmptyOr(b, r)[p]))
  }

  lemma LeftMergeLookups<R>(a: Tree<R>, b: Tree<R>, r: string, p: string, g: string)
    ensures RuleAt(LeftMerge(a, b), r, p, g) == if RuleAt(a, r, p, g).Some? then RuleAt(a, r, p, g) else RuleAt(b, r, p, g)
    ensures LabelAt(LeftMerge(a, b), r, p) == if LabelAt(a, r, p).Some? then LabelAt(a, r, p) else LabelAt(b, r, p)
  {
  }

  lemma LeftMergeNoEmpty<R>(a: Tree<R>, b: Tree<R>)
    requires NoEmpty(a) && NoEmpty(b)
    ensures NoEmpty(LeftMerge(a, b))
  {
    var t := LeftMerge(a, b);
    forall r | r in t ensures t[r].permissions != map[] {
      var p :| p in EmptyOr(a, r) || p in EmptyOr(b, r);
      assert p in t[r].permissions;
    }
    forall r, p | r in t && p in t[r].permissions ensures t[r].permissions[p].rules != map[] {
      LeftMergeHasRule(a, b, r, p);
    }
  }

  lemma LeftMergeHasRule<R>(a: Tree<R>, b: Tree<R>, r: string, p: string)
    requires NoEmpty(a) && NoEmpty(b)
    requires PermissionAt(LeftMerge(a, b), r, p).Some?
    ensures LeftMerge(a, b)[r].permissions[p].rules != map[]
  {
    if PermissionAt(a, r, p).Some? {
      var g :| g in a[r].permissions[p].rules;
      LeftMergeLookups(a, b, r, p, g);
    } else {
      var g :| g in b[r].permissions[p].rules;
      LeftMergeLookups(a, b, r, p, g);
    }
  }

  /** The request of a concatenation is the left-biased merge of the two requests. */
  lemma {:induction false} BuiltOfConcat(l: seq<AccessInfo>, m: seq<AccessInfo>, added: bool, modified: bool)
    ensures Built(l + m, added, modified) == LeftMerge(Built(l, added, modified), Built(m, added, modified))
  {
    hide Built, LeftMerge, RuleAt, LabelAt, NoEmpty;
    var a, b, c := Built(l, added, modified), Built(m, added, modified), Built(l + m, added, modified);
    BuiltHasNoEmptyPart(l, added, modified);
    BuiltHasNoEmptyPart(m, added, modified);
    BuiltHasNoEmptyPart(l + m, added, modified);
    LeftMergeNoEmpty(a, b);
    forall r, p, g ensures RuleAt(c, r, p, g) == RuleAt(LeftMerge(a, b), r, p, g) {
      BuiltIsFirstWins(l, added, modified, r, p, g);
      BuiltIsFirstWins(m, added, modified, r, p, g);
      BuiltIsFirstWins(l + m, added, modified, r, p, g);
      FirstRuleOfConcat(l, m, r, p, g);
      LeftMergeLookups(a, b, r, p, g);
    }
    forall r, p ensures LabelAt(c, r, p) == LabelAt(LeftMerge(a, b), r, p) {
      BuiltIsFirstWins(l, added, modified, r, p, "");
      BuiltIsFirstWins(m, added, modified, r, p, "");
      BuiltIsFirstWins(l + m, added, modified, r, p, "");
      FirstPermissionOfConcat(l, m, r, p);
      LeftMergeLookups(a, b, r, p, "");
    }
    SameTree(c, LeftMerge(a, b));
  }

  predicate SameValues(e: AccessInfo, f: AccessInfo) {
    e.min == f.min && e.max == f.max && e.force == f.force && e.action == f.action
  }

  /** Entries for the same rule agree on its values, entries for the same permission agree on its label. */
  predicate Consistent(l: seq<AccessInfo>) {
    && (forall e, f | e in l && f in l && SameRuleKey(f, e.refPattern, e.permissionName, e.groupName) :: SameValues(e, f))
    && (forall e, f | e in l && f in l && SamePermissionKey(f, e.refPattern, e.permissionName) :: e.permissionLabel == f.permissionLabel)
  }

  /** Reordering (or repeating entries of) a consistent list changes nothing. */
  lemma {:induction false} OrderIsIrrelevant(l: seq<AccessInfo>, m: seq<AccessInfo>, added: bool, modified: bool)
    requires forall e :: e in l <==> e in m
    requires Consistent(l)
    ensures Built(l, added, modified) == Built(m, added, modified)
  {
    hide Built, RuleAt, LabelAt, NoEmpty;
    var a, b := Built(l, added, modified), Built(m, added, modified);
    BuiltHasNoEmptyPart(l, added, modified);
    BuiltHasNoEmptyPart(m, added, modified);
    forall r, p, g ensures RuleAt(a, r, p, g) == RuleAt(b, r, p, g) {
      BuiltIsFirstWins(l, added, modified, r, p, g);
      BuiltIsFirstWins(m, added, modified, r, p, g);
      FirstRuleIsListed(l, r, p, g);
      FirstRuleIsListed(m, r, p, g);
    }
    forall r, p ensures LabelAt(a, r, p) == LabelAt(b, r, p) {
      BuiltIsFirstWins(l, added, modified, r, p, "");
      BuiltIsFirstWins(m, added, modified, r, p, "");
      FirstPermissionIsListed(l, r, p);
      FirstPermissionIsListed(m, r, p);
    }
    SameTree(a, b);
  }

  function MoveToFront(l: seq<AccessInfo>, i: nat): (m: seq<AccessInfo>)
    requires i < |l|
    ensures multiset(m) == multiset(l)
  {
    assert l == l[..i] + [l[i]] + l[i + 1..];
    [l[i]] + l[..i] + l[i + 1..]
  }

  /** The condition is exact: two entries that disagree make two reorderings of the list build different requests. */
  lemma OrderMatters(l: seq<AccessInfo>, added: bool, modified: bool)
    requires !Consistent(l)
    ensures exists i: nat, j: nat | i < |l| && j < |l| ::
              Built(MoveToFront(l, i), added, modified) != Built(MoveToFront(l, j), added, modified)
  {
    hide Built;
    var e, f :| e in l && f in l && SamePermissionKey(f, e.refPattern, e.permissionName)
                && ((e.groupName == f.groupName && !SameValues(e, f)) || e.permissionLabel != f.permissionLabel);
    var i: nat :| i < |l| && l[i] == e;
    var j: nat :| j < |l| && l[j] == f;
    var x, y := MoveToFront(l, i), MoveToFront(l, j);
    assert x[0] == e && y[0] == f;
    BuiltIsFirstWins(x, added, modified, e.refPattern, e.permissionName, e.groupName);
    BuiltIsFirstWins(y, added, modified, e.refPattern, e.permissionName, e.groupName);
    assert Built(x, added, modified) != Built(y, added, modified);
  }

  // ---------- The effect on the server ----------

  function ToRule(g: GroupPermissions): Rule {
    Rule(g.min, g.max, g.force, g.action)
  }

  /** The rules of one stored permission that survive the removals. */
  function KeptRules(b: Rights, req: Request, r: string, p: string): map<string, Rule>
    requires PermissionAt(b, r, p).Some?
  {
    var rules := b[r].permissions[p].rules;
    if r !in req then rules
    else if req[r].permissions == map[] then map[]
    else if p !in req[r].permissions then rules
    else if req[r].permissions[p].rules == map[] then map[]
    else rules - req[r].permissions[p].rules.Keys
  }

  function KeptPermissions(b: Rights, req: Request, r: string): map<string, Permission<Rule>>
    requires r in b
  {
    map p | p in b[r].permissions && KeptRules(b, req, r, p) != map[] :: b[r].permissions[p].(rules := KeptRules(b, req, r, p))
  }

  /** Removal of a section, permission or rule, whichever is the finest part given, then cleanup of empty parts. */
  function Removed(b: Rights, req: Request): Rights {
    map r | r in b && KeptPermissions(b, req, r) != map[] :: Reference(KeptPermissions(b, req, r))
  }

  function AddedRules(b: Rights, req: Request, r: string, p: string): map<string, Rule> {
    (if PermissionAt(b, r, p).Some? then b[r].permissions[p].rules else map[])
    + (if PermissionAt(req, r, p).Some? then map g | g in req[r].permissions[p].rules :: ToRule(req[r].permissions[p].rules[g]) else map[])
  }

  /** Additions: a permission that exists keeps its label. */
  function Added(b: Rights, req: Request): Rights {
    map r | r in b.Keys + req.Keys ::
      Reference(map p | p in EmptyOr(b, r).Keys + EmptyOr(req, r).Keys ::
        Permission(if PermissionAt(b, r, p).Some? then EmptyOr(b, r)[p].labelText else EmptyOr(req, r)[p].labelText, AddedRules(b, req, r, p)))
  }

  lemma RemovedLookups(b: Rights, req: Request, r: string, p: string, g: string)
    requires NoEmpty(req)
    ensures RuleAt(Removed(b, req), r, p, g) == if RuleAt(req, r, p, g).Some? then None else RuleAt(b, r, p, g)
    ensures LabelAt(Removed(b, req), r, p).Some? ==> LabelAt(Removed(b, req), r, p) == LabelAt(b, r, p)
    ensures RuleAt(Removed(b, req), r, p, g).Some? ==> LabelAt(Removed(b, req), r, p) == LabelAt(b, r, p)
  {
    if RuleAt(b, r, p, g).Some? && RuleAt(req, r, p, g).None? {
      assert g in KeptRules(b, req, r, p);
      assert p in KeptPermissions(b, req, r);
      assert r in Removed(b, req);
    }
  }

  lemma RemovedNoEmpty(b: Rights, req: Request)
    ensures NoEmpty(Removed(b, req))
  {
  }

  lemma AddedLookups(b: Rights, req: Request, r: string, p: string, g: string)
    ensures RuleAt(Added(b, req), r, p, g) == if RuleAt(req, r, p, g).Some? then Some(ToRule(RuleAt(req, r, p, g).value)) else RuleAt(b, r, p, g)
    ensures LabelAt(Added(b, req), r, p) == if LabelAt(b, r, p).Some? then LabelAt(b, r, p) else LabelAt(req, r, p)
  {
  }

  lemma AddedRulesNotEmpty(b: Rights, req: Request, r: string, p: string)
    requires NoEmpty(b) && NoEmpty(req)
    requires PermissionAt(b, r, p).Some? || PermissionAt(req, r, p).Some?
    ensures AddedRules(b, req, r, p) != map[]
  {
    if PermissionAt(req, r, p).Some? {
      var g :| g in req[r].permissions[p].rules;
      assert g in AddedRules(b, req, r, p);
    } else {
      var g :| g in b[r].permissions[p].rules;
      assert g in AddedRules(b, req, r, p);
    }
  }

  lemma AddedNoEmpty(b: Rights, req: Request)
    requires NoEmpty(b) && NoEmpty(req)
    ensures NoEmpty(Added(b, req))
  {
    hide AddedRules;
    var t := Added(b, req);
    forall r | r in t ensures t[r].permissions != map[] {
      var p :| p in EmptyOr(b, r) || p in EmptyOr(req, r);
      assert p in t[r].permissions;
    }
    forall r, p | r in t && p in t[r].permissions ensures t[r].permissions[p].rules != map[] {
      AddedRulesNotEmpty(b, req, r, p);
    }
  }

  /** AddAccessRights, UpdateAccessRights and DeleteAccessRights, as the server carries them out. */
  function AfterAdd(b: Rights, l: seq<AccessInfo>): Rights {
    Added(b, Built(l, true, false))
  }

  function AfterUpdate(b: Rights, l: seq<AccessInfo>): Rights {
    Added(Removed(b, Built(l, false, true)), Built(l, false, true))
  }

  function AfterDelete(b: Rights, l: seq<AccessInfo>): Rights {
    Removed(b, Built(l, false, false))
  }

  function EntryRule(e: AccessInfo): Rule {
    Rule(e.min, e.max, e.force, e.action)
  }

  /** The value listed first for a rule. */
  function ListedRule(l: seq<AccessInfo>, r: string, p: string, g: string): Option<Rule> {
    var e := FirstRule(l, r, p, g);
    if e.Some? then Some(EntryRule(e.value)) else None
  }

  predicate HoldsNone(b: Rights, l: seq<AccessInfo>) {
    forall e | e in l :: RuleAt(b, e.refPattern, e.permissionName, e.groupName).None?
  }

  lemma AfterDeleteLookups(b: Rights, l: seq<AccessInfo>, r: string, p: string, g: string)
    ensures RuleAt(AfterDelete(b, l), r, p, g) == if Listed(l, r, p, g) then None else RuleAt(b, r, p, g)
    ensures LabelAt(AfterDelete(b, l), r, p).Some? ==> LabelAt(AfterDelete(b, l), r, p) == LabelAt(b, r, p)
    ensures RuleAt(AfterDelete(b, l), r, p, g).Some? ==> LabelAt(AfterDelete(b, l), r, p) == LabelAt(b, r, p)
    ensures NoEmpty(AfterDelete(b, l))
  {
    hide Built, Removed, RuleAt, LabelAt, NoEmpty;
    BuiltHasNoEmptyPart(l, false, false);
    BuiltIsFirstWins(l, false, false, r, p, g);
    FirstRuleIsListed(l, r, p, g);
    RemovedLookups(b, Built(l, false, false), r, p, g);
    RemovedNoEmpty(b, Built(l, false, false));
  }

  lemma AfterAddLookups(b: Rights, l: seq<AccessInfo>, r: string, p: string, g: string)
    ensures RuleAt(AfterAdd(b, l), r, p, g) == if Listed(l, r, p, g) then ListedRule(l, r, p, g) else RuleAt(b, r, p, g)
    ensures LabelAt(b, r, p).Some? ==> LabelAt(AfterAdd(b, l), r, p) == LabelAt(b, r, p)
    ensures NoEmpty(b) ==> NoEmpty(AfterAdd(b, l))
  {
    hide Built, Added, RuleAt, LabelAt, NoEmpty;
    BuiltHasNoEmptyPart(l, true, false);
    BuiltIsFirstWins(l, true, false, r, p, g);
    FirstRuleIsListed(l, r, p, g);
    AddedLookups(b, Built(l, true, false), r, p, g);
    if NoEmpty(b) {
      AddedNoEmpty(b, Built(l, true, false));
    }
  }

  /** After a delete none of the listed rules is left. */
  lemma DeleteLeavesNone(b: Rights, l: seq<AccessInfo>)
    ensures HoldsNone(AfterDelete(b, l), l)
  {
    forall e | e in l ensures RuleAt(AfterDelete(b, l), e.refPattern, e.permissionName, e.groupName).None? {
      AfterDeleteLookups(b, l, e.refPattern, e.permissionName, e.groupName);
    }
  }

  /** A permission without empty parts has a label exactly when it has a rule. */
  lemma LabelMeansRule<R>(t: Tree<R>, r: string, p: string)
    requires NoEmpty(t)
    ensures LabelAt(t, r, p).Some? <==> exists g :: RuleAt(t, r, p, g).Some?
  {
    if LabelAt(t, r, p).Some? {
      var g :| g in t[r].permissions[p].rules;
      assert RuleAt(t, r, p, g).Some?;
    }
  }

  /** Delete undoes add on exactly the backends that held none of the listed rules. */
  lemma DeleteUndoesAdd(b: Rights, l: seq<AccessInfo>)
    requires NoEmpty(b)
    ensures AfterDelete(AfterAdd(b, l), l) == b <==> HoldsNone(b, l)
  {
    hide AfterDelete, AfterAdd, RuleAt, LabelAt, NoEmpty;
    var a := AfterAdd(b, l);
    var c := AfterDelete(a, l);
    DeleteLeavesNone(a, l);
    if HoldsNone(b, l) {
      AfterAddLookups(b, l, "", "", "");
      AfterDeleteLookups(a, l, "", "", "");
      forall r, p, g ensures RuleAt(c, r, p, g) == RuleAt(b, r, p, g) {
        AfterAddLookups(b, l, r, p, g);
        AfterDeleteLookups(a, l, r, p, g);
      }
      forall r, p ensures LabelAt(c, r, p) == LabelAt(b, r, p) {
        LabelMeansRule(b, r, p);
        LabelMeansRule(c, r, p);
        AfterAddLookups(b, l, r, p, "");
        AfterDeleteLookups(a, l, r, p, "");
      }
      SameTree(c, b);
    }
  }

  /** Update sets the first-listed value of every listed rule and leaves every other rule untouched. */
  lemma AfterUpdateLookups(b: Rights, l: seq<AccessInfo>, r: string, p: string, g: string)
    ensures RuleAt(AfterUpdate(b, l), r, p, g) == if Listed(l, r, p, g) then ListedRule(l, r, p, g) else RuleAt(b, r, p, g)
    ensures NoEmpty(AfterUpdate(b, l))
  {
    hide Built, Added, Removed, RuleAt, NoEmpty;
    var req := Built(l, false, true);
    BuiltHasNoEmptyPart(l, false, true);
    BuiltIsFirstWins(l, false, true, r, p, g);
    FirstRuleIsListed(l, r, p, g);
    RemovedLookups(b, req, r, p, g);
    RemovedNoEmpty(b, req);
    AddedLookups(Removed(b, req), req, r, p, g);
    AddedNoEmpty(Removed(b, req), req);
  }

  /** The label a permission ends with: its own while a rule outside the list keeps it alive, else the listed one. */
  lemma AfterUpdateLabel(b: Rights, l: seq<AccessInfo>, r: string, p: string)
    ensures LabelAt(AfterUpdate(b, l), r, p)
         == if exists g :: RuleAt(b, r, p, g).Some? && !Listed(l, r, p, g) then LabelAt(b, r, p)
            else if FirstPermission(l, r, p).Some? then Some(FirstPermission(l, r, p).value.permissionLabel) else None
  {
    hide Built, Added, Removed, RuleAt, LabelAt, NoEmpty;
    var req := Built(l, false, true);
    var kept := Removed(b, req);
    BuiltHasNoEmptyPart(l, false, true);
    BuiltIsFirstWins(l, false, true, r, p, "");
    RemovedNoEmpty(b, req);
    LabelMeansRule(kept, r, p);
    AddedLookups(kept, req, r, p, "");
    forall g ensures RuleAt(kept, r, p, g).Some? <==> RuleAt(b, r, p, g).Some? && !Listed(l, r, p, g) {
      BuiltIsFirstWins(l, false, true, r, p, g);
      FirstRuleIsListed(l, r, p, g);
      RemovedLookups(b, req, r, p, g);
    }
    if g :| RuleAt(kept, r, p, g).Some? {
      RemovedLookups(b, req, r, p, g);
    }
  }

  /** Updating twice with the same list is updating once. */
  lemma UpdateIsIdempotent(b: Rights, l: seq<AccessInfo>)
    ensures AfterUpdate(AfterUpdate(b, l), l) == AfterUpdate(b, l)
  {
    hide AfterUpdate, RuleAt, LabelAt, NoEmpty, Listed;
    var a := AfterUpdate(b, l);
    var c := AfterUpdate(a, l);
    AfterUpdateLookups(b, l, "", "", "");
    AfterUpdateLookups(a, l, "", "", "");
    forall r, p, g ensures RuleAt(c, r, p, g) == RuleAt(a, r, p, g) {
      AfterUpdateLookups(b, l, r, p, g);
      AfterUpdateLookups(a, l, r, p, g);
    }
    forall r, p ensures LabelAt(c, r, p) == LabelAt(a, r, p) {
      AfterUpdateLabel(b, l, r, p);
      AfterUpdateLabel(a, l, r, p);
      forall g ensures RuleAt(a, r, p, g).Some? && !Listed(l, r, p, g) <==> RuleAt(b, r, p, g).Some? && !Listed(l, r, p, g) {
        AfterUpdateLookups(b, l, r, p, g);
      }
    }
    SameTree(c, a);
  }
}
