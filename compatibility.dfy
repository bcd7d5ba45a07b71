/** Which starting methods a motor of a given power may use: those whose
    inclusive [minPowerHp, maxPowerHp] envelope contains the power. */
module Compatibility {
  import opened Parts

  /** The envelope test, inclusive at both ends. */
  predicate Accepts(m: StartingMethod, powerHp: real)
  {
    m.minPowerHp <= powerHp <= m.maxPowerHp
  }

  /** The compatible methods, in catalog order. */
  function CompatibleMethods(methods: seq<StartingMethod>, powerHp: real): (r: seq<StartingMethod>)
    ensures forall m :: m in r <==> m in methods && Accepts(m, powerHp)
  {
    if methods == [] then []
    else
      var init, last := methods[..|methods| - 1], methods[|methods| - 1];
      assert methods == init + [last];
      CompatibleMethods(init, powerHp) + (if Accepts(last, powerHp) then [last] else [])
  }

  /** Filtering commutes with concatenation: the result keeps catalog order. */
  lemma {:induction false} CompatibleMethodsAppend(a: seq<StartingMethod>, b: seq<StartingMethod>, powerHp: real)
    ensures CompatibleMethods(a + b, powerHp) == CompatibleMethods(a, powerHp) + CompatibleMethods(b, powerHp)
    decreases |b|
  {
    if b == [] {
      assert a + b == a;
    } else {
      var init, last := b[..|b| - 1], b[|b| - 1];
      assert a + b == (a + init) + [last];
      assert (a + b)[..|a + b| - 1] == a + init;
      CompatibleMethodsAppend(a, init, powerHp);
    }
  }

  predicate AllAccept(methods: seq<StartingMethod>, powerHp: real)
  {
    forall i :: 0 <= i < |methods| ==> Accepts(methods[i], powerHp)
  }

  /** A filtered list never has more entries than the catalog, and keeps
      them all exactly when every method accepts the power. */
  lemma {:induction false} CompatibleMethodsShorter(methods: seq<StartingMethod>, powerHp: real)
    ensures |CompatibleMethods(methods, powerHp)| <= |methods|
    ensures |CompatibleMethods(methods, powerHp)| == |methods| <==> AllAccept(methods, powerHp)
  {
    if methods != [] {
      var init, last := methods[..|methods| - 1], methods[|methods| - 1];
      CompatibleMethodsShorter(init, powerHp);
      assert |CompatibleMethods(methods, powerHp)| == |CompatibleMethods(init, powerHp)| + (if Accepts(last, powerHp) then 1 else 0);
      if AllAccept(methods, powerHp) {
        forall i | 0 <= i < |init| ensures Accepts(init[i], powerHp) {
          assert init[i] == methods[i];
        }
      }
      if AllAccept(init, powerHp) && Accepts(last, powerHp) {
        forall i | 0 <= i < |methods| ensures Accepts(methods[i], powerHp) {
          if i < |init| {
            assert methods[i] == init[i];
          }
        }
      }
    }
  }

  /** The names of a list of methods, in order. */
  function Names(methods: seq<StartingMethod>): (names: seq<string>)
    ensures |names| == |methods|
    ensures forall i :: 0 <= i < |methods| ==> names[i] == methods[i].name
  {
    if methods == [] then [] else [methods[0].name] + Names(methods[1..])
  }

  /** A name is listed exactly when some listed method carries it. */
  lemma {:induction false} NamesMembership(methods: seq<StartingMethod>, name: string)
    ensures name in Names(methods) <==> exists m :: m in methods && m.name == name
  {
    if name in Names(methods) {
      var i :| 0 <= i < |methods| && Names(methods)[i] == name;
      assert methods[i] in methods;
    }
  }

  /** A requested method passes the compatibility check exactly when the
      catalog holds a method of that name whose envelope contains the power. */
  lemma {:induction false} CompatibleNameCharacterized(methods: seq<StartingMethod>, powerHp: real, name: string)
    ensures name in Names(CompatibleMethods(methods, powerHp))
        <==> exists m :: m in methods && m.name == name && Accepts(m, powerHp)
  {
    NamesMembership(CompatibleMethods(methods, powerHp), name);
  }

  /** The loop of the source: walk the catalog, append every method whose
      envelope contains the power. */
  method GetCompatibleStartingMethods(methods: seq<StartingMethod>, powerHp: real) returns (compatible: seq<StartingMethod>)
    ensures compatible == CompatibleMethods(methods, powerHp)
  {
    compatible := [];
    for i := 0 to |methods|
      invariant compatible == CompatibleMethods(methods[..i], powerHp)
    {
      assert methods[..i + 1][..i] == methods[..i];
      if Accepts(methods[i], powerHp) {
        compatible := compatible + [methods[i]];
      }
    }
    assert methods[..|methods|] == methods;
  }
}
