/** The duplicate-key registry `Config.keyMap`: a map from a scope string (the
    condition names joined by ',') to the set of `key+mods` strings registered
    in that scope. Both compiler generations use it unchanged. */
module Registry {
  import opened Common

  type Scopes = map<string, set<string>>

  /** `${key}+${mods.join(',')}` */
  function KeyId(key: string, mods: seq<string>): string
  {
    key + "+" + Join(mods, ",")
  }

  /** `conds.join(',')` */
  function ScopeId(conds: seq<string>): string
  {
    Join(conds, ",")
  }

  /** The message `chkDupKey` throws: the key, its modifiers joined by '+', and the
      context when one is given (an empty context counts as none). */
  function DupMessage(key: string, mods: seq<string>, ctx: Option<string>): string
  {
    "Duplicate key combination: "
    + (if |mods| > 0 then key + "+" + Join(mods, "+") else key)
    + (if ctx.Some? && ctx.value != "" then " in " + ctx.value else "")
  }

  predicate Holds(s: Scopes, sc: string, sk: string)
  {
    sc in s && sk in s[sc]
  }

  predicate RegisteredAnywhere(s: Scopes, sk: string)
  {
    exists sc :: sc in s && sk in s[sc]
  }

  /** The outcome of one `chkDupKey` call and the registry it leaves. */
  datatype Check = Check(status: Status, scopes: Scopes)

  /** `chkDupKey(key, mods, conds, ctx)` as a function of the registry before the call. */
  function ChkDup(s: Scopes, key: string, mods: seq<string>, conds: seq<string>, ctx: Option<string>): (c: Check)
    ensures var sk, sc := KeyId(key, mods), ScopeId(conds);
      && (c.status.Fail? <==> Holds(s, sc, sk))
      && (c.status.Fail? ==> c.status.msg == DupMessage(key, mods, ctx) && c.scopes == s)
      && (c.status.Pass? ==>
            && Holds(c.scopes, sc, sk)
            && c.scopes.Keys == s.Keys + {sc}
            && c.scopes[sc] == (if sc in s then s[sc] else {}) + {sk}
            && (forall o :: o in s && o != sc ==> c.scopes[o] == s[o]))
  {
    var sk, sc := KeyId(key, mods), ScopeId(conds);
    if Holds(s, sc, sk) then Check(Fail(DupMessage(key, mods, ctx)), s)
    else Check(Pass, s[sc := (if sc in s then s[sc] else {}) + {sk}])
  }

  /** Registration only ever adds. */
  ghost predicate Grows(s: Scopes, t: Scopes)
  {
    forall sc :: sc in s ==> sc in t && s[sc] <= t[sc]
  }

  class KeyRegistry {
    var scopes: Scopes

    constructor ()
      ensures scopes == map[]
    {
      scopes := map[];
    }

    /** `Config.chkDupKey`: accept and record a key new to its scope, otherwise throw. */
    method ChkDupKey(key: string, mods: seq<string>, conds: seq<string>, ctx: Option<string>) returns (st: Status)
      modifies this
      ensures Check(st, scopes) == ChkDup(old(scopes), key, mods, conds, ctx)
    {
      var sk := KeyId(key, mods);
      var sc := ScopeId(conds);
      if sc !in scopes {
        scopes := scopes[sc := {}];
      }
      if sk in scopes[sc] {
        st := Fail(DupMessage(key, mods, ctx));
        return;
      }
      scopes := scopes[sc := scopes[sc] + {sk}];
      st := Pass;
    }

    /** The scan `ruleBaseBy` makes over every scope's set before it registers a base key. */
    method AnyScopeHas(sk: string) returns (found: bool)
      ensures found <==> RegisteredAnywhere(scopes, sk)
    {
      var rest := scopes.Keys;
      found := false;
      while rest != {}
        invariant rest <= scopes.Keys
        invariant found <==> exists sc :: sc in scopes.Keys - rest && sk in scopes[sc]
        decreases rest
      {
        var sc :| sc in rest;
        if sk in scopes[sc] {
          found := true;
        }
        rest := rest - {sc};
      }
    }
  }

  /** Registry strings identify key and modifiers exactly, in order, for keys without '+'
      and non-empty modifiers without ','. */
  lemma KeyIdInjective(k1: string, m1: seq<string>, k2: string, m2: seq<string>)
    requires '+' !in k1 && '+' !in k2
    requires Separable(m1, ',') && Separable(m2, ',')
    requires KeyId(k1, m1) == KeyId(k2, m2)
    ensures k1 == k2 && m1 == m2
  {
    var s := KeyId(k1, m1);
    assert s == k1 + "+" + Join(m1, ",") == k2 + "+" + Join(m2, ",");
    assert s[|k1|] == '+' && s[|k2|] == '+';
    assert forall i :: 0 <= i < |k1| ==> s[i] == k1[i];
    assert forall i :: 0 <= i < |k2| ==> s[i] == k2[i];
    assert |k1| == |k2|;
    assert k1 == s[..|k1|] == k2;
    assert Join(m1, ",") == s[|k1| + 1..] == Join(m2, ",");
    JoinInjective(m1, m2, ',');
  }

  /** The same modifiers in another order register as a different key. */
  lemma ModifierOrderMatters(key: string, a: string, b: string)
    requires a != b && Separable([a, b], ',')
    ensures KeyId(key, [a, b]) != KeyId(key, [b, a])
  {
    if KeyId(key, [a, b]) == KeyId(key, [b, a]) {
      assert Join([a, b], ",") == KeyId(key, [a, b])[|key| + 1..];
      JoinInjective([a, b], [b, a], ',');
    }
  }
}
