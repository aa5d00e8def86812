/**
 * What the propagation of the shifted jets does to the modules of the
 * process: the baseline MET corrections are loaded and pointed at the
 * configured jets and candidates, and then cloned, stage by stage, so that
 * each clone reads the shifted jets (or the clone before it) while keeping
 * every other parameter of the baseline module it descends from.
 */
module Rewiring {
  import opened Parameters
  import opened Graph

  // ---------------------------------------------------------------------------
  // Clones of clones
  // ---------------------------------------------------------------------------

  /**
   * A clone and then a clone of that clone: the second descends from the
   * same source, with both sets of overrides, the later ones winning.
   */
  lemma ClonePairRewired(s: ProcessState, upName: string, source: string, downName: string,
                         upOverrides: map<string, Param>, downOverrides: map<string, Param>)
    requires source in s.modules
    ensures Runnable(s, [AddClone(upName, source, upOverrides), AddClone(downName, upName, downOverrides)])
    ensures Run(s, [AddClone(upName, source, upOverrides), AddClone(downName, upName, downOverrides)]).modules
      == s.modules[upName := Clone(s.modules[source], upOverrides)]
                  [downName := Clone(s.modules[source], upOverrides + downOverrides)]
  {
    RunPair(s, AddClone(upName, source, upOverrides), AddClone(downName, upName, downOverrides));
    CloneTwice(s.modules[source], upOverrides, downOverrides);
  }

  // ---------------------------------------------------------------------------
  // The stages of the jet propagation
  // ---------------------------------------------------------------------------

  /**
   * Loading the baseline, editing it and splicing its sequence in: the
   * baseline modules replace any of the same name, both jet selections read
   * the configured jets, the candidates outside jets are taken from the
   * configured candidates, and every other parameter of the three edited
   * modules is the baseline's.
   */
  lemma BaselineRewired(s: ProcessState, c: Config, baseline: map<string, Module>)
    requires BaselineModules <= baseline.Keys
    ensures Runnable(s, BaselineOps(c, baseline))
    ensures Run(s, BaselineOps(c, baseline)).modules == (s.modules + baseline)
      [SelectedJetsType1p2 := Clone(baseline[SelectedJetsType1p2], SrcOverride(c.jetCollection))]
      [SelectedJetsType2 := Clone(baseline[SelectedJetsType2], SrcOverride(c.jetCollection))]
      [PfCandsNotInJet := Clone(baseline[PfCandsNotInJet], map["bottomCollection" := TagParam(Tag(c.pfCandCollection))])]
    ensures BaselineModules <= Run(s, BaselineOps(c, baseline)).modules.Keys
    ensures Run(s, BaselineOps(c, baseline)).modules[SelectedJetsType1p2].params["src"] == TagParam(Tag(c.jetCollection))
    ensures Run(s, BaselineOps(c, baseline)).modules[SelectedJetsType2].params["src"] == TagParam(Tag(c.jetCollection))
  {
    var sel1 := Clone(baseline[SelectedJetsType1p2], SrcOverride(c.jetCollection));
    var sel2 := Clone(baseline[SelectedJetsType2], SrcOverride(c.jetCollection));
    var cands := Clone(baseline[PfCandsNotInJet], map["bottomCollection" := TagParam(Tag(c.pfCandCollection))]);
    BaselineRun(s, c, baseline, sel1, sel2, cands);
    BaselineNamesDistinct();
  }

  lemma BaselineRun(s: ProcessState, c: Config, baseline: map<string, Module>, sel1: Module, sel2: Module, cands: Module)
    requires BaselineModules <= baseline.Keys
    requires sel1 == Clone(baseline[SelectedJetsType1p2], SrcOverride(c.jetCollection))
    requires sel2 == Clone(baseline[SelectedJetsType2], SrcOverride(c.jetCollection))
    requires cands == Clone(baseline[PfCandsNotInJet], map["bottomCollection" := TagParam(Tag(c.pfCandCollection))])
    ensures Runnable(s, BaselineOps(c, baseline))
    ensures Run(s, BaselineOps(c, baseline)).modules ==
      (s.modules + baseline)[SelectedJetsType1p2 := sel1][SelectedJetsType2 := sel2][PfCandsNotInJet := cands]
  {
    var ops := BaselineOps(c, baseline);
    var first, second := [ops[0], ops[1]], [ops[2], ops[3]];
    assert ops == first + second + [ops[4]];
    RunPair(s, ops[0], ops[1]);
    RunPair(Run(s, first), ops[2], ops[3]);
    RunConcat(s, first, second);
    RunSnoc(s, first + second, ops[4]);
    BaselineNamesDistinct();
  }

  lemma BaselineNamesDistinct()
    ensures SelectedJetsType1p2 != PfCandsNotInJet && SelectedJetsType2 != PfCandsNotInJet
    ensures SelectedJetsType1p2 != SelectedJetsType2
  {
    assert |SelectedJetsType1p2| == 32 && |SelectedJetsType2| == 30 && |PfCandsNotInJet| == 15;
  }

  /**
   * The four jet selections of the corrections: each shifted selection is
   * the baseline selection of its type with only its input replaced by the
   * jets shifted in its direction.
   */
  lemma JetSelectionsRewired(s: ProcessState, up: string, down: string)
    requires SelectedJetsType1p2 in s.modules && SelectedJetsType2 in s.modules
    ensures Runnable(s, JetSelectionOps(up, down))
    ensures Run(s, JetSelectionOps(up, down)).modules == s.modules
      [SelectedJetsType1p2 + EnUp := Clone(s.modules[SelectedJetsType1p2], SrcOverride(up))]
      [SelectedJetsType2 + EnUp := Clone(s.modules[SelectedJetsType2], SrcOverride(up))]
      [SelectedJetsType1p2 + EnDown := Clone(s.modules[SelectedJetsType1p2], SrcOverride(down))]
      [SelectedJetsType2 + EnDown := Clone(s.modules[SelectedJetsType2], SrcOverride(down))]
  {
    var up1, up2 := SelectedJetsType1p2 + EnUp, SelectedJetsType2 + EnUp;
    var down1, down2 := SelectedJetsType1p2 + EnDown, SelectedJetsType2 + EnDown;
    assert SelectedJetsType2 != up1 && up1 != up2 && up2 != down1 by {
      assert |SelectedJetsType2| == 30 && |up1| == 36 && |up2| == 34 && |down1| == 38;
    }
    assert JetSelectionOps(up, down) == [AddClone(up1, SelectedJetsType1p2, SrcOverride(up)),
      AddClone(up2, SelectedJetsType2, SrcOverride(up)),
      AddClone(down1, up1, SrcOverride(down)), AddClone(down2, up2, SrcOverride(down))];
    SrcOverrideTwice(up, down);
    CrossedClonePairs(s, SelectedJetsType1p2, SelectedJetsType2, up1, up2, down1, down2, SrcOverride(up), SrcOverride(down));
  }

  /** A second input override replaces the first. */
  lemma SrcOverrideTwice(first: string, second: string)
    ensures SrcOverride(first) + SrcOverride(second) == SrcOverride(second)
  {
  }

  /**
   * Two clones, and then a clone of each of them: the later clones descend
   * from the same sources, with both sets of overrides.
   */
  lemma CrossedClonePairs(s: ProcessState, source1: string, source2: string, up1: string, up2: string,
                          down1: string, down2: string, upOverrides: map<string, Param>, downOverrides: map<string, Param>)
    requires source1 in s.modules && source2 in s.modules
    requires source2 != up1 && up1 != up2 && up2 != down1
    ensures Runnable(s, [AddClone(up1, source1, upOverrides), AddClone(up2, source2, upOverrides),
                         AddClone(down1, up1, downOverrides), AddClone(down2, up2, downOverrides)])
    ensures Run(s, [AddClone(up1, source1, upOverrides), AddClone(up2, source2, upOverrides),
                    AddClone(down1, up1, downOverrides), AddClone(down2, up2, downOverrides)]).modules
      == s.modules[up1 := Clone(s.modules[source1], upOverrides)][up2 := Clone(s.modules[source2], upOverrides)]
                  [down1 := Clone(s.modules[source1], upOverrides + downOverrides)]
                  [down2 := Clone(s.modules[source2], upOverrides + downOverrides)]
  {
    var m1, m2 := s.modules[source1], s.modules[source2];
    var first := [AddClone(up1, source1, upOverrides), AddClone(up2, source2, upOverrides)];
    var second := [AddClone(down1, up1, downOverrides), AddClone(down2, up2, downOverrides)];
    var c1, c2 := Clone(m1, upOverrides), Clone(m2, upOverrides);
    TwoClones(s, up1, source1, source2, up2, upOverrides, upOverrides);
    var s2 := Run(s, first);
    assert s2.modules[up1] == c1 && s2.modules[up2] == c2;
    TwoClones(s2, down1, up1, up2, down2, downOverrides, downOverrides);
    CloneTwice(m1, upOverrides, downOverrides);
    CloneTwice(m2, upOverrides, downOverrides);
    RunConcat(s, first, second);
    assert first + second == [AddClone(up1, source1, upOverrides), AddClone(up2, source2, upOverrides),
                              AddClone(down1, up1, downOverrides), AddClone(down2, up2, downOverrides)];
  }

  /** Two clones of modules that are there, the second not reading the first. */
  lemma TwoClones(s: ProcessState, name1: string, source1: string, source2: string, name2: string,
                  overrides1: map<string, Param>, overrides2: map<string, Param>)
    requires source1 in s.modules && source2 in s.modules && source2 != name1
    ensures Runnable(s, [AddClone(name1, source1, overrides1), AddClone(name2, source2, overrides2)])
    ensures Run(s, [AddClone(name1, source1, overrides1), AddClone(name2, source2, overrides2)]).modules
      == s.modules[name1 := Clone(s.modules[source1], overrides1)][name2 := Clone(s.modules[source2], overrides2)]
  {
    RunPair(s, AddClone(name1, source1, overrides1), AddClone(name2, source2, overrides2));
  }

  /** The input map of the shifted type-1+2 corrections: the given jet selection and the configured jet corrections. */
  function CorrectionsOverrides(c: Config, selection: string): map<string, Param>
  {
    map["src" := TagParam(Tag(selection)), "jetCorrLabel" := StringParam(c.jetCorrLabel)]
  }

  /**
   * The shifted type-1+2 corrections: both are the baseline corrections
   * with the configured jet corrections, reading the selection of their
   * own direction; the down one keeps nothing of the up one's input.
   */
  lemma CorrectionsRewired(s: ProcessState, c: Config)
    requires JetCorr in s.modules
    ensures Runnable(s, ShiftedCorrectionOps(c))
    ensures Run(s, ShiftedCorrectionOps(c)).modules == s.modules
      [JetCorr + EnUp := Clone(s.modules[JetCorr], CorrectionsOverrides(c, SelectedJetsType1p2 + EnUp))]
      [JetCorr + EnDown := Clone(s.modules[JetCorr], CorrectionsOverrides(c, SelectedJetsType1p2 + EnDown))]
  {
    var up, down := CorrectionsOverrides(c, SelectedJetsType1p2 + EnUp), SrcOverride(SelectedJetsType1p2 + EnDown);
    ClonePairRewired(s, JetCorr + EnUp, JetCorr, JetCorr + EnDown, up, down);
    OverrideSource(c, SelectedJetsType1p2 + EnUp, SelectedJetsType1p2 + EnDown);
  }

  lemma OverrideSource(c: Config, a: string, b: string)
    ensures CorrectionsOverrides(c, a) + SrcOverride(b) == CorrectionsOverrides(c, b)
  {
  }

  /**
   * A corrected MET shifted up and then down: both are clones of the
   * baseline MET reading it, each with only the corrections of its own
   * direction (the down clone does not keep the up corrections).
   */
  lemma MetShiftPairRewired(s: ProcessState, met: string, upName: string, downName: string,
                            upTags: seq<InputTag>, downTags: seq<InputTag>)
    requires met in s.modules
    ensures Runnable(s, [AddClone(upName, met, MetOverride(met, upTags)), AddClone(downName, upName, CorrectionsOverride(downTags))])
    ensures Run(s, [AddClone(upName, met, MetOverride(met, upTags)), AddClone(downName, upName, CorrectionsOverride(downTags))]).modules
      == s.modules[upName := Clone(s.modules[met], MetOverride(met, upTags))]
                  [downName := Clone(s.modules[met], MetOverride(met, downTags))]
  {
    ClonePairRewired(s, upName, met, downName, MetOverride(met, upTags), CorrectionsOverride(downTags));
    assert MetOverride(met, upTags) + CorrectionsOverride(downTags) == MetOverride(met, downTags);
  }

  /** A corrected MET shifted by the jet energy scale: each direction reads the shifted type-1 corrections of that direction. */
  lemma JetMetRewired(s: ProcessState, met: string)
    requires met in s.modules
    ensures Runnable(s, JetMetOps(met))
    ensures Run(s, JetMetOps(met)).modules == s.modules
      [met + "JetEnUp" := Clone(s.modules[met], MetOverride(met, [InputTag(JetCorr + EnUp, "type1")]))]
      [met + "JetEnDown" := Clone(s.modules[met], MetOverride(met, [InputTag(JetCorr + EnDown, "type1")]))]
  {
    MetShiftPairRewired(s, met, met + "JetEnUp", met + "JetEnDown",
      [InputTag(JetCorr + EnUp, "type1")], [InputTag(JetCorr + EnDown, "type1")]);
  }

  /** A corrected MET shifted by the unclustered energy: each direction reads every shifted source of that direction. */
  lemma UnclusteredMetRewired(s: ProcessState, met: string)
    requires met in s.modules
    ensures Runnable(s, UnclusteredMetOps(met))
    ensures Run(s, UnclusteredMetOps(met)).modules == s.modules
      [met + "UnclusteredEnUp" := Clone(s.modules[met], MetOverride(met, UnclusteredTags(UnclusteredSources, EnUp)))]
      [met + "UnclusteredEnDown" := Clone(s.modules[met], MetOverride(met, UnclusteredTags(UnclusteredSources, EnDown)))]
  {
    MetShiftPairRewired(s, met, met + "UnclusteredEnUp", met + "UnclusteredEnDown",
      UnclusteredTags(UnclusteredSources, EnUp), UnclusteredTags(UnclusteredSources, EnDown));
  }

  /**
   * The shifted jets propagated through the corrections to both corrected
   * METs: the four selections read the shifted jets, the two corrections
   * read the selections of their direction, and the four METs read the
   * baseline MET and the corrections of their direction; every module that
   * was there before, the baseline ones included, is left as it was.
   */
  lemma EtaSplitRewired(s: ProcessState, c: Config, up: string, down: string)
    requires BaselineModules <= s.modules.Keys
    ensures Runnable(s, EtaSplitOps(c, up, down))
    ensures Run(s, EtaSplitOps(c, up, down)).modules == s.modules
      [SelectedJetsType1p2 + EnUp := Clone(s.modules[SelectedJetsType1p2], SrcOverride(up))]
      [SelectedJetsType2 + EnUp := Clone(s.modules[SelectedJetsType2], SrcOverride(up))]
      [SelectedJetsType1p2 + EnDown := Clone(s.modules[SelectedJetsType1p2], SrcOverride(down))]
      [SelectedJetsType2 + EnDown := Clone(s.modules[SelectedJetsType2], SrcOverride(down))]
      [JetCorr + EnUp := Clone(s.modules[JetCorr], CorrectionsOverrides(c, SelectedJetsType1p2 + EnUp))]
      [JetCorr + EnDown := Clone(s.modules[JetCorr], CorrectionsOverrides(c, SelectedJetsType1p2 + EnDown))]
      [Type1Met + "JetEnUp" := Clone(s.modules[Type1Met], MetOverride(Type1Met, [InputTag(JetCorr + EnUp, "type1")]))]
      [Type1Met + "JetEnDown" := Clone(s.modules[Type1Met], MetOverride(Type1Met, [InputTag(JetCorr + EnDown, "type1")]))]
      [Type1p2Met + "JetEnUp" := Clone(s.modules[Type1p2Met], MetOverride(Type1p2Met, [InputTag(JetCorr + EnUp, "type1")]))]
      [Type1p2Met + "JetEnDown" := Clone(s.modules[Type1p2Met], MetOverride(Type1p2Met, [InputTag(JetCorr + EnDown, "type1")]))]
  {
    var a, b, d, e := JetSelectionOps(up, down), ShiftedCorrectionOps(c), JetMetOps(Type1Met), JetMetOps(Type1p2Met);
    var s1 := Run(s, a);
    var s2 := Run(s1, b);
    var s3 := Run(s2, d);
    assert Runnable(s, a) && s1.modules == s.modules
      [SelectedJetsType1p2 + EnUp := Clone(s.modules[SelectedJetsType1p2], SrcOverride(up))]
      [SelectedJetsType2 + EnUp := Clone(s.modules[SelectedJetsType2], SrcOverride(up))]
      [SelectedJetsType1p2 + EnDown := Clone(s.modules[SelectedJetsType1p2], SrcOverride(down))]
      [SelectedJetsType2 + EnDown := Clone(s.modules[SelectedJetsType2], SrcOverride(down))] by {
      JetSelectionsRewired(s, up, down);
    }
    assert s1.modules[JetCorr] == s.modules[JetCorr] && s1.modules[Type1Met] == s.modules[Type1Met]
      && s1.modules[Type1p2Met] == s.modules[Type1p2Met] by {
      SelectionNamesAreNew();
    }
    var corrUp := Clone(s.modules[JetCorr], CorrectionsOverrides(c, SelectedJetsType1p2 + EnUp));
    var corrDown := Clone(s.modules[JetCorr], CorrectionsOverrides(c, SelectedJetsType1p2 + EnDown));
    assert Runnable(s1, b) && s2.modules == s1.modules[JetCorr + EnUp := corrUp][JetCorr + EnDown := corrDown] by {
      CorrectionsRewired(s1, c);
    }
    assert s2.modules[Type1Met] == s.modules[Type1Met] && s2.modules[Type1p2Met] == s.modules[Type1p2Met] by {
      CorrectionNamesAreNew();
      KeptByTwoUpdates(s1.modules, JetCorr + EnUp, corrUp, JetCorr + EnDown, corrDown, Type1Met);
      KeptByTwoUpdates(s1.modules, JetCorr + EnUp, corrUp, JetCorr + EnDown, corrDown, Type1p2Met);
    }
    var metUp := Clone(s.modules[Type1Met], MetOverride(Type1Met, [InputTag(JetCorr + EnUp, "type1")]));
    var metDown := Clone(s.modules[Type1Met], MetOverride(Type1Met, [InputTag(JetCorr + EnDown, "type1")]));
    assert Runnable(s2, d) && s3.modules == s2.modules[Type1Met + "JetEnUp" := metUp][Type1Met + "JetEnDown" := metDown] by {
      JetMetRewired(s2, Type1Met);
    }
    assert s3.modules[Type1p2Met] == s.modules[Type1p2Met] by {
      MetNamesAreNew();
      KeptByTwoUpdates(s2.modules, Type1Met + "JetEnUp", metUp, Type1Met + "JetEnDown", metDown, Type1p2Met);
    }
    JetMetRewired(s3, Type1p2Met);
    RunConcat(s, a, b);
    RunConcat(s, a + b, d);
    RunConcat(s, a + b + d, e);
  }

  /** The names of the shifted selections are none of the baseline corrections and METs. */
  lemma SelectionNamesAreNew()
    ensures forall x | x in [SelectedJetsType1p2 + EnUp, SelectedJetsType2 + EnUp,
                             SelectedJetsType1p2 + EnDown, SelectedJetsType2 + EnDown] ::
      x != JetCorr && x != Type1Met && x != Type1p2Met
  {
    assert |SelectedJetsType1p2 + EnUp| == 36 && |SelectedJetsType2 + EnUp| == 34;
    assert |SelectedJetsType1p2 + EnDown| == 38 && |SelectedJetsType2 + EnDown| == 36;
  }

  /** The names of the shifted corrections are none of the baseline METs. */
  lemma CorrectionNamesAreNew()
    ensures JetCorr + EnUp != Type1Met && JetCorr + EnUp != Type1p2Met
    ensures JetCorr + EnDown != Type1Met && JetCorr + EnDown != Type1p2Met
  {
    assert |JetCorr + EnUp| == 26 && |JetCorr + EnDown| == 28;
  }

  /** The names of the shifted type-1 METs are not the type-1+2 MET. */
  lemma MetNamesAreNew()
    ensures Type1Met + "JetEnUp" != Type1p2Met && Type1Met + "JetEnDown" != Type1p2Met
  {
    assert |Type1Met + "JetEnUp"| == 29 && |Type1Met + "JetEnDown"| == 31;
  }

  /** Two updates at other keys leave an entry as it was. */
  lemma KeptByTwoUpdates(m: map<string, Module>, k1: string, v1: Module, k2: string, v2: Module, x: string)
    requires x in m && x != k1 && x != k2
    ensures x in m[k1 := v1][k2 := v2] && m[k1 := v1][k2 := v2][x] == m[x]
  {
  }
}
