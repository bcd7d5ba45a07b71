/** Worked cases over rows of the seeded parts database: the five starting
    methods as seeded, and small excerpts of the seeded contactor and
    overload-relay tables. */
module SeedScenarios {
  import opened Parts
  import opened Electrical
  import opened Compatibility
  import opened ContactorSelection
  import opened RelaySelection
  import opened Orchestration

  /** The starting methods as seeded. */
  const Dol: StartingMethod :=
    StartingMethod("DOL", "Direct On-Line starter - simplest and most economical method", 0.5, 5.0, 0.0, 0.0, 1, 1.0)
  const StarDelta: StartingMethod :=
    StartingMethod("Star-Delta", "Star-Delta starter - reduces starting current to 1/3", 15.0, 200.0, 0.67, 0.67, 2, 2.5)
  const SoftStarter: StartingMethod :=
    StartingMethod("Soft Starter", "Electronic soft starter - gradual voltage increase", 5.0, 500.0, 0.5, 0.3, 2, 3.0)
  const Vfd: StartingMethod :=
    StartingMethod("VFD", "Variable Frequency Drive - full speed and torque control", 1.0, 1000.0, 0.8, 0.0, 3, 5.0)
  const Autotransformer: StartingMethod :=
    StartingMethod("Autotransformer", "Autotransformer starter - better torque than star-delta", 25.0, 300.0, 0.5, 0.36, 2, 3.5)

  /** The starting-methods table, in insertion order. */
  const SeedMethods: seq<StartingMethod> := [Dol, StarDelta, SoftStarter, Vfd, Autotransformer]

  /** The seeded 18 A and 25 A contactors. */
  const SeedContactors: seq<Contactor> := [
    Contactor("AF25-30-11", "ABB", 25.0, 690.0, "AC-3", 3, "AF25", 68.0),
    Contactor("LC1D18M7", "Schneider Electric", 18.0, 690.0, "AC-3", 3, "D18", 55.0),
    Contactor("LC1D25M7", "Schneider Electric", 25.0, 690.0, "AC-3", 3, "D25", 65.0),
    Contactor("3RT1025-1BB40", "Siemens", 25.0, 690.0, "AC-3", 3, "S0", 68.0),
    Contactor("DILM17-10", "Eaton", 18.0, 690.0, "AC-3", 3, "DILM17", 56.0),
    Contactor("DILM25-10", "Eaton", 25.0, 690.0, "AC-3", 3, "DILM25", 66.0)]

  const TF42_1_0: OverloadRelay := OverloadRelay("TF42-1.0", "ABB", 0.63, 1.0, 10, "Manual", ["AF09"], 35.0)
  const TF42_1_6: OverloadRelay := OverloadRelay("TF42-1.6", "ABB", 1.0, 1.6, 10, "Manual", ["AF09", "AF12"], 35.0)
  const LRD05: OverloadRelay := OverloadRelay("LRD05", "Schneider Electric", 0.63, 1.0, 10, "Manual", ["D09"], 32.0)

  /** The seeded relays around 1 A. */
  const SeedRelays: seq<OverloadRelay> := [TF42_1_0, TF42_1_6, LRD05]

  function Keep(m: StartingMethod, powerHp: real): seq<StartingMethod>
  {
    if Accepts(m, powerHp) then [m] else []
  }

  /** The seeded methods filtered one row at a time. */
  lemma SeedFilter(powerHp: real)
    ensures CompatibleMethods(SeedMethods, powerHp)
         == Keep(Dol, powerHp) + Keep(StarDelta, powerHp) + Keep(SoftStarter, powerHp)
          + Keep(Vfd, powerHp) + Keep(Autotransformer, powerHp)
  {
    var m := SeedMethods;
    assert m[..1][..0] == [];
    assert CompatibleMethods(m[..1], powerHp) == Keep(m[0], powerHp);
    assert m[..2][..1] == m[..1];
    assert CompatibleMethods(m[..2], powerHp) == Keep(m[0], powerHp) + Keep(m[1], powerHp);
    assert m[..3][..2] == m[..2];
    assert CompatibleMethods(m[..3], powerHp) == Keep(m[0], powerHp) + Keep(m[1], powerHp) + Keep(m[2], powerHp);
    assert m[..4][..3] == m[..3];
    assert CompatibleMethods(m[..4], powerHp) == Keep(m[0], powerHp) + Keep(m[1], powerHp) + Keep(m[2], powerHp) + Keep(m[3], powerHp);
    assert m[..4] == m[..|m| - 1];
  }

  /** A 1 HP motor may use DOL or VFD only. */
  lemma SeedCompatibleAt1Hp()
    ensures Names(CompatibleMethods(SeedMethods, 1.0)) == ["DOL", "VFD"]
  {
    assert CompatibleMethods(SeedMethods, 1.0) == [Dol, Vfd] by {
      SeedFilter(1.0);
    }
  }

  /** A 5 HP motor may use DOL, Soft Starter or VFD: 5 HP is the top of
      the DOL envelope and the bottom of the Soft Starter one, and both
      ends are inclusive. */
  lemma SeedCompatibleAt5Hp()
    ensures Names(CompatibleMethods(SeedMethods, 5.0)) == ["DOL", "Soft Starter", "VFD"]
  {
    assert CompatibleMethods(SeedMethods, 5.0) == [Dol, SoftStarter, Vfd] by {
      SeedFilter(5.0);
    }
  }

  /** A 30 HP motor may use every method but DOL, Autotransformer included. */
  lemma SeedCompatibleAt30Hp()
    ensures Names(CompatibleMethods(SeedMethods, 30.0)) == ["Star-Delta", "Soft Starter", "VFD", "Autotransformer"]
  {
    assert CompatibleMethods(SeedMethods, 30.0) == [StarDelta, SoftStarter, Vfd, Autotransformer] by {
      SeedFilter(30.0);
    }
  }

  /** A 10 HP motor may use Soft Starter or VFD only. */
  lemma SeedCompatibleAt10Hp()
    ensures Names(CompatibleMethods(SeedMethods, 10.0)) == ["Soft Starter", "VFD"]
  {
    assert CompatibleMethods(SeedMethods, 10.0) == [SoftStarter, Vfd] by {
      SeedFilter(10.0);
    }
  }

  /** A 10 HP motor asking for DOL is refused, and the answer offers Soft
      Starter and VFD. */
  lemma SeedDolTooLarge(cat: Catalog, num: Numerics)
    requires cat.methods == SeedMethods
    ensures var req := MotorRequest(Some(10.0), None, None, None, Some("DOL"), None, None);
      && Recommend(cat, num, req).Err?
      && Recommend(cat, num, req).error.IncompatibleMethod?
      && Names(Recommend(cat, num, req).error.compatible) == ["Soft Starter", "VFD"]
  {
    var req := MotorRequest(Some(10.0), None, None, None, Some("DOL"), None, None);
    assert NormalizePower(req.powerHp, req.powerKw) == Some(MotorPower(10.0, 10.0 * KwPerHp));
    SeedCompatibleAt10Hp();
    assert "DOL" !in Names(CompatibleMethods(SeedMethods, 10.0));
  }

  /** For a 20 A rating the cheapest 25 A contactor is chosen; the 18 A
      ones are too small and the dearer 25 A ones lose on price. */
  lemma SeedContactorChoice()
    ensures SelectBestContactor(SeedContactors, 20.0, 415.0) == Some(SeedContactors[2])
  {
    var c := SeedContactors;
    assert c[5..][1..] == [];
    assert SelectBestContactor(c[5..], 20.0, 415.0) == Some(c[5]);
    assert c[4..][1..] == c[5..];
    assert SelectBestContactor(c[4..], 20.0, 415.0) == Some(c[5]);
    assert c[3..][1..] == c[4..];
    assert SelectBestContactor(c[3..], 20.0, 415.0) == Some(c[5]);
    assert c[2..][1..] == c[3..];
    assert SelectBestContactor(c[2..], 20.0, 415.0) == Some(c[2]);
    assert c[1..][1..] == c[2..];
    assert SelectBestContactor(c[1..], 20.0, 415.0) == Some(c[2]);
  }

  /** At 0.8 A the band is 0.64 A to 0.96 A: both 0.63-1.0 A relays span
      it, the 1.0-1.6 A one does not. */
  lemma SeedBandRelaysAt08()
    ensures BandRelays(SeedRelays, 0.8) == [TF42_1_0, LRD05]
  {
    assert BandRelays([LRD05], 0.8) == [LRD05] by {
      assert [LRD05][1..] == [];
    }
    assert BandRelays([TF42_1_6, LRD05], 0.8) == [LRD05] by {
      assert [TF42_1_6, LRD05][1..] == [LRD05];
    }
    assert SeedRelays[1..] == [TF42_1_6, LRD05];
  }

  /** The band candidates at 0.8 A in price order, the cheaper Schneider
      relay first. */
  lemma SeedBandAt08()
    ensures SortByPrice(BandRelays(SeedRelays, 0.8)) == [LRD05, TF42_1_0]
  {
    SeedBandRelaysAt08();
    assert SortByPrice([LRD05]) == [LRD05] by {
      assert [LRD05][1..] == [];
    }
    assert [TF42_1_0, LRD05][1..] == [LRD05];
  }

  /** At 0.8 A the frame decides between the two band candidates. */
  lemma SeedRelayByFrame()
    ensures SelectRelay(SeedRelays, 0.8, "AF09") == Some(TF42_1_0)
    ensures SelectRelay(SeedRelays, 0.8, "D09") == Some(LRD05)
  {
    SeedBandAt08();
    assert FirstFitting([LRD05, TF42_1_0], "D09") == Some(LRD05);
    assert FirstFitting([LRD05, TF42_1_0], "AF09") == Some(TF42_1_0) by {
      assert !FitsFrame(LRD05, "AF09");
      assert [LRD05, TF42_1_0][1..] == [TF42_1_0];
    }
  }

  /** A frame no relay lists falls back to the cheapest relay containing
      0.8 A, whatever its frames. */
  lemma SeedRelayFallback()
    ensures SelectRelay(SeedRelays, 0.8, "S00") == Some(LRD05)
  {
    SeedBandAt08();
    assert FirstFitting([LRD05, TF42_1_0], "S00").None?;
    assert CheapestCovering(SeedRelays, 0.8) == Some(LRD05) by {
      assert SeedRelays[1..] == [TF42_1_6, LRD05];
      assert SeedRelays[1..][1..] == [LRD05];
      assert CheapestCovering([LRD05], 0.8) == Some(LRD05);
      assert CheapestCovering([TF42_1_6, LRD05], 0.8) == Some(LRD05);
    }
  }
}
