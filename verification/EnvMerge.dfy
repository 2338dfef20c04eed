/**
 Merging environment variables into a container (pkg/service/platform/helper/helper.go).

 `Merged` is the value the loops of `UpdateEnv` compute: every existing entry is replaced by the first
 entry of the same name in the new list, and the names that are still missing are appended once each.
 Both lists may repeat names.
 */
module EnvMerge {
  import opened Common

  datatype EnvVar = EnvVar(name: string, value: string)

  datatype Container = Container(name: string, env: seq<EnvVar>)

  function Names(env: seq<EnvVar>): set<string> {
    set e | e in env :: e.name
  }

  /** First-match lookup. */
  function Lookup(env: seq<EnvVar>, name: string): Option<EnvVar> {
    if env == [] then None
    else if env[0].name == name then Some(env[0])
    else Lookup(env[1..], name)
  }

  function Newer(e: EnvVar, env: seq<EnvVar>): EnvVar {
    var found := Lookup(env, e.name);
    if found.Some? then found.value else e
  }

  function Replace(existing: seq<EnvVar>, env: seq<EnvVar>): seq<EnvVar> {
    if existing == [] then [] else [Newer(existing[0], env)] + Replace(existing[1..], env)
  }

  /** The first entry of each name outside `covered`, in order. */
  function Missing(env: seq<EnvVar>, covered: set<string>): seq<EnvVar> {
    if env == [] then []
    else if env[0].name in covered then Missing(env[1..], covered)
    else [env[0]] + Missing(env[1..], covered + {env[0].name})
  }

  function Merged(existing: seq<EnvVar>, env: seq<EnvVar>): seq<EnvVar> {
    Replace(existing, env) + Missing(env, Names(existing))
  }

  // ---------- Elementary facts ----------

  lemma {:induction false} LookupInNames(env: seq<EnvVar>, name: string)
    ensures Lookup(env, name).Some? <==> name in Names(env)
    ensures Lookup(env, name).Some? ==> Lookup(env, name).value in env && Lookup(env, name).value.name == name
  {
    if env != [] {
      LookupInNames(env[1..], name);
      assert env == [env[0]] + env[1..];
    }
  }

  lemma {:induction false} NamesOfConcat(a: seq<EnvVar>, b: seq<EnvVar>)
    ensures Names(a + b) == Names(a) + Names(b)
  {
    forall n ensures n in Names(a + b) <==> n in Names(a) + Names(b) {
      if n in Names(a) {
        var e :| e in a && e.name == n;
        assert e in a + b;
      }
      if n in Names(b) {
        var e :| e in b && e.name == n;
        assert e in a + b;
      }
    }
  }

  lemma {:induction false} LookupInConcat(a: seq<EnvVar>, b: seq<EnvVar>, name: string)
    ensures Lookup(a + b, name) == if Lookup(a, name).Some? then Lookup(a, name) else Lookup(b, name)
  {
    if a == [] {
      assert a + b == b;
    } else {
      assert (a + b)[1..] == a[1..] + b;
      LookupInConcat(a[1..], b, name);
    }
  }

  lemma {:induction false} ReplaceKeepsNames(a: seq<EnvVar>, env: seq<EnvVar>)
    ensures Names(Replace(a, env)) == Names(a)
  {
    if a != [] {
      ReplaceKeepsNames(a[1..], env);
      LookupInNames(env, a[0].name);
      NamesOfConcat([a[0]], a[1..]);
      NamesOfConcat([Newer(a[0], env)], Replace(a[1..], env));
      assert a == [a[0]] + a[1..];
      assert Names([a[0]]) == {a[0].name};
      assert Names([Newer(a[0], env)]) == {a[0].name};
    }
  }

  lemma {:induction false} ReplaceConcat(a: seq<EnvVar>, b: seq<EnvVar>, env: seq<EnvVar>)
    ensures Replace(a + b, env) == Replace(a, env) + Replace(b, env)
  {
    if a == [] {
      assert a + b == b;
    } else {
      assert (a + b)[1..] == a[1..] + b;
      ReplaceConcat(a[1..], b, env);
    }
  }

  lemma {:induction false} LookupInReplace(a: seq<EnvVar>, env: seq<EnvVar>, name: string)
    ensures Lookup(Replace(a, env), name)
         == if Lookup(a, name).None? then None else if Lookup(env, name).Some? then Lookup(env, name) else Lookup(a, name)
  {
    if a != [] {
      LookupInNames(env, a[0].name);
      LookupInReplace(a[1..], env, name);
    }
  }

  lemma {:induction false} LookupInMissing(env: seq<EnvVar>, covered: set<string>, name: string)
    ensures Lookup(Missing(env, covered), name) == if name in covered then None else Lookup(env, name)
  {
    if env != [] {
      if env[0].name in covered {
        LookupInMissing(env[1..], covered, name);
      } else {
        LookupInMissing(env[1..], covered + {env[0].name}, name);
      }
    }
  }

  lemma MissingOne(e: EnvVar, covered: set<string>)
    ensures Missing([e], covered) == if e.name in covered then [] else [e]
  {
    assert [e][1..] == [];
  }

  /** Only the covered names that occur in the list matter. */
  lemma {:induction false} MissingDependsOnNames(env: seq<EnvVar>, a: set<string>, b: set<string>)
    requires forall e | e in env :: e.name in a <==> e.name in b
    ensures Missing(env, a) == Missing(env, b)
  {
    if env != [] {
      var tail := env[1..];
      assert forall e | e in tail :: e in env;
      if env[0].name in a {
        MissingDependsOnNames(tail, a, b);
      } else {
        MissingDependsOnNames(tail, a + {env[0].name}, b + {env[0].name});
      }
    }
  }

  lemma {:induction false} MissingConcat(a: seq<EnvVar>, b: seq<EnvVar>, covered: set<string>)
    ensures Missing(a + b, covered) == Missing(a, covered) + Missing(b, covered + Names(a))
  {
    if a == [] {
      assert a + b == b;
      assert covered + Names(a) == covered;
    } else {
      assert (a + b)[1..] == a[1..] + b;
      NamesOfConcat([a[0]], a[1..]);
      assert a == [a[0]] + a[1..];
      assert Names([a[0]]) == {a[0].name};
      if a[0].name in covered {
        MissingConcat(a[1..], b, covered);
        assert covered + Names(a[1..]) == covered + Names(a);
      } else {
        MissingConcat(a[1..], b, covered + {a[0].name});
        assert covered + {a[0].name} + Names(a[1..]) == covered + Names(a);
      }
    }
  }

  lemma {:induction false} MissingOfReplace(b: seq<EnvVar>, c: seq<EnvVar>, covered: set<string>)
    ensures Missing(Replace(b, c), covered) == Replace(Missing(b, covered), c)
  {
    if b != [] {
      LookupInNames(c, b[0].name);
      assert Newer(b[0], c).name == b[0].name;
      assert Replace(b, c)[1..] == Replace(b[1..], c);
      if b[0].name in covered {
        MissingOfReplace(b[1..], c, covered);
      } else {
        MissingOfReplace(b[1..], c, covered + {b[0].name});
        ReplaceConcat([b[0]], Missing(b[1..], covered + {b[0].name}), c);
      }
    }
  }

  lemma {:induction false} MissingOfMissing(c: seq<EnvVar>, inner: set<string>, outer: set<string>)
    ensures Missing(Missing(c, inner), outer) == Missing(c, inner + outer)
  {
    if c != [] {
      var n := c[0].name;
      if n in inner {
        MissingOfMissing(c[1..], inner, outer);
      } else {
        var rest := Missing(c[1..], inner + {n});
        assert Missing(c, inner)[1..] == rest;
        if n in outer {
          MissingOfMissing(c[1..], inner + {n}, outer);
          assert inner + {n} + outer == inner + outer;
        } else {
          MissingOfMissing(c[1..], inner + {n}, outer + {n});
          assert inner + {n} + (outer + {n}) == inner + outer + {n};
        }
      }
    }
  }

  // ---------- Main results ----------

  /** Lookup in the result is lookup in the new list, falling back to the old one. */
  lemma {:induction false} LookupInMerged(existing: seq<EnvVar>, env: seq<EnvVar>, name: string)
    ensures Lookup(Merged(existing, env), name)
         == if Lookup(env, name).Some? then Lookup(env, name) else Lookup(existing, name)
  {
    LookupInConcat(Replace(existing, env), Missing(env, Names(existing)), name);
    LookupInReplace(existing, env, name);
    LookupInMissing(env, Names(existing), name);
    LookupInNames(existing, name);
  }

  lemma {:induction false} ReplaceTwice(a: seq<EnvVar>, b: seq<EnvVar>, c: seq<EnvVar>)
    ensures Replace(Replace(a, b), c) == Replace(a, Merged(b, c))
  {
    if a != [] {
      ReplaceTwice(a[1..], b, c);
      LookupInMerged(b, c, a[0].name);
      LookupInNames(b, a[0].name);
      assert Replace(a, b)[1..] == Replace(a[1..], b);
      assert Newer(Newer(a[0], b), c) == Newer(a[0], Merged(b, c));
    }
  }

  /** Both bracketings of three lists flatten to this list. */
  function MergedThree(a: seq<EnvVar>, b: seq<EnvVar>, c: seq<EnvVar>): seq<EnvVar> {
    Replace(Replace(a, b), c) + Replace(Missing(b, Names(a)), c) + Missing(c, Names(a) + Names(b))
  }

  lemma {:induction false} MergedLeft(a: seq<EnvVar>, b: seq<EnvVar>, c: seq<EnvVar>)
    ensures Merged(Merged(a, b), c) == MergedThree(a, b, c)
  {
    NamesOfMerged(a, b);
    ReplaceConcat(Replace(a, b), Missing(b, Names(a)), c);
  }

  lemma {:induction false} MergedRight(a: seq<EnvVar>, b: seq<EnvVar>, c: seq<EnvVar>)
    ensures Merged(a, Merged(b, c)) == MergedThree(a, b, c)
  {
    hide Replace, Missing, Names;
    var na, nb := Names(a), Names(b);
    ReplaceTwice(a, b, c);
    MissingConcat(Replace(b, c), Missing(c, nb), na);
    ReplaceKeepsNames(b, c);
    MissingOfReplace(b, c, na);
    MissingOfMissing(c, nb, na + nb);
    assert nb + (na + nb) == na + nb;
  }

  /** Associativity, entry by entry, for all lists. */
  lemma {:induction false} MergedIsAssociative(a: seq<EnvVar>, b: seq<EnvVar>, c: seq<EnvVar>)
    ensures Merged(Merged(a, b), c) == Merged(a, Merged(b, c))
  {
    MergedLeft(a, b, c);
    MergedRight(a, b, c);
  }

  lemma {:induction false} NamesOfMerged(a: seq<EnvVar>, b: seq<EnvVar>)
    ensures Names(Merged(a, b)) == Names(a) + Names(b)
  {
    ReplaceKeepsNames(a, b);
    NamesOfConcat(Replace(a, b), Missing(b, Names(a)));
    MissingNames(b, Names(a));
  }

  lemma {:induction false} MissingNames(env: seq<EnvVar>, covered: set<string>)
    ensures Names(Missing(env, covered)) == Names(env) - covered
  {
    forall n ensures n in Names(Missing(env, covered)) <==> n in Names(env) - covered {
      LookupInMissing(env, covered, n);
      LookupInNames(env, n);
      LookupInNames(Missing(env, covered), n);
    }
  }

  /** Applying the same patch a second time changes nothing, for all lists. */
  lemma {:induction false} MergedIsIdempotent(a: seq<EnvVar>, b: seq<EnvVar>)
    ensures Merged(Merged(a, b), b) == Merged(a, b)
  {
    var na := Names(a);
    ReplaceConcat(Replace(a, b), Missing(b, na), b);
    NamesOfMerged(a, b);
    NothingMissing(b, na + Names(b));
    forall n ensures Lookup(Merged(b, b), n) == Lookup(b, n) { LookupInMerged(b, b, n); }
    ReplaceTwice(a, b, b);
    ReplaceDependsOnLookup(a, Merged(b, b), b);
    MissingIsOwnReplacement(b, b, na);
  }

  lemma {:induction false} NothingMissing(env: seq<EnvVar>, covered: set<string>)
    requires Names(env) <= covered
    ensures Missing(env, covered) == []
  {
    if env != [] {
      assert env[0] in env;
      assert forall e | e in env[1..] :: e in env;
      NothingMissing(env[1..], covered);
    }
  }

  lemma {:induction false} ReplaceDependsOnLookup(a: seq<EnvVar>, b: seq<EnvVar>, c: seq<EnvVar>)
    requires forall n :: Lookup(b, n) == Lookup(c, n)
    ensures Replace(a, b) == Replace(a, c)
  {
    if a != [] {
      ReplaceDependsOnLookup(a[1..], b, c);
    }
  }

  /** What `Missing` keeps are first occurrences, so replacing them by first occurrences is no change. */
  lemma {:induction false} MissingIsOwnReplacement(rest: seq<EnvVar>, env: seq<EnvVar>, covered: set<string>)
    requires forall n | n !in covered :: Lookup(rest, n) == Lookup(env, n)
    ensures Replace(Missing(rest, covered), env) == Missing(rest, covered)
  {
    if rest != [] {
      if rest[0].name in covered {
        MissingIsOwnReplacement(rest[1..], env, covered);
      } else {
        assert Lookup(rest, rest[0].name) == Some(rest[0]);
        MissingIsOwnReplacement(rest[1..], env, covered + {rest[0].name});
      }
    }
  }

  // ---------- The loops ----------

  method FindEnv(env: seq<EnvVar>, name: string) returns (found: EnvVar, ok: bool)
    ensures ok <==> Lookup(env, name).Some?
    ensures found == if ok then Lookup(env, name).value else EnvVar("", "")
  {
    for i := 0 to |env|
      invariant Lookup(env, name) == Lookup(env[i..], name)
    {
      assert env[i..][1..] == env[i + 1..];
      if env[i].name == name {
        return env[i], true;
      }
    }
    return EnvVar("", ""), false;
  }

  method IsStringInSlice(str: string, list: seq<string>) returns (r: bool)
    ensures r <==> str in list
  {
    for i := 0 to |list|
      invariant str !in list[..i]
    {
      if list[i] == str {
        return true;
      }
    }
    return false;
  }

  lemma {:induction false} NamesStep(env: seq<EnvVar>, i: nat)
    requires i < |env|
    ensures Names(env[..i + 1]) == Names(env[..i]) + {env[i].name}
  {
    assert env[..i + 1] == env[..i] + [env[i]];
    NamesOfConcat(env[..i], [env[i]]);
    assert Names([env[i]]) == {env[i].name};
  }

  lemma {:induction false} ReplaceStep(existing: seq<EnvVar>, env: seq<EnvVar>, i: nat)
    requires i < |existing|
    ensures Replace(existing[..i + 1], env) == Replace(existing[..i], env) + [Newer(existing[i], env)]
  {
    assert existing[..i + 1] == existing[..i] + [existing[i]];
    ReplaceConcat(existing[..i], [existing[i]], env);
    assert Replace([existing[i]], env) == [Newer(existing[i], env)];
  }

  lemma {:induction false} MissingStep(env: seq<EnvVar>, covered: set<string>, i: nat)
    requires i < |env|
    ensures Missing(env[..i + 1], covered)
         == Missing(env[..i], covered) + if env[i].name in covered + Names(env[..i]) then [] else [env[i]]
  {
    assert env[..i + 1] == env[..i] + [env[i]];
    MissingConcat(env[..i], [env[i]], covered);
  }

  method UpdateEnv(existing: seq<EnvVar>, env: seq<EnvVar>) returns (out: seq<EnvVar>)
    ensures out == Merged(existing, env)
  {
    out := [];
    var covered: seq<string> := [];
    for i := 0 to |existing|
      invariant out == Replace(existing[..i], env)
      invariant forall n :: n in covered <==> n in Names(existing[..i]) && n in Names(env)
    {
      var e := existing[i];
      ReplaceStep(existing, env, i);
      NamesStep(existing, i);
      LookupInNames(env, e.name);
      var newer, ok := FindEnv(env, e.name);
      if ok {
        covered := covered + [e.name];
        out := out + [newer];
        continue;
      }
      out := out + [e];
    }
    assert existing[..|existing|] == existing;
    ghost var replaced := out;
    for j := 0 to |env|
      invariant out == replaced + Missing(env[..j], Names(existing))
      invariant forall n | n in Names(env) :: n in covered <==> n in Names(existing) + Names(env[..j])
    {
      var e := env[j];
      MissingStep(env, Names(existing), j);
      NamesStep(env, j);
      assert e in env;
      var seen := IsStringInSlice(e.name, covered);
      if seen {
        continue;
      }
      covered := covered + [e.name];
      out := out + [e];
    }
    assert env[..|env|] == env;
  }

  method SelectContainer(containers: seq<Container>, name: string) returns (r: Option<Container>)
    ensures r.Some? ==> exists i: nat :: IsFirst(containers, (c: Container) => c.name == name, i) && r.value == containers[i]
    ensures r.None? <==> forall c | c in containers :: c.name != name
  {
    for i := 0 to |containers|
      invariant forall k | 0 <= k < i :: containers[k].name != name
    {
      if containers[i].name == name {
        assert IsFirst(containers, (c: Container) => c.name == name, i);
        return Some(containers[i]);
      }
    }
    return None;
  }
}
