/**
 * Properties of the module graph: which names can be formed, how many
 * labels each stage appends and in what order, the up/down shift pairs,
 * the inputs of the anti-overlap filter and of the unclustered-energy
 * corrections, and the repeated registration of the per-particle
 * correction inputs.
 */
module GraphProperties {
  import opened Wrappers
  import opened Naming
  import opened Parameters
  import opened Graph

  // ---------------------------------------------------------------------------
  // Which configurations can be named
  // ---------------------------------------------------------------------------

  /** A collection label that `_addModuleToSequence` can use: empty (skipped) or not emptied by stripping. */
  predicate LabelNameable(l: string)
  {
    l == "" || Strip(l) != ""
  }

  lemma ShiftedSurvives() ensures Strip("shifted") != "" { StripKeepsHead("shifted"); }
  lemma EnUpSurvives() ensures Strip(EnUp) != "" { StripKeepsHead(EnUp); }
  lemma EnDownSurvives() ensures Strip(EnDown) != "" { StripKeepsHead(EnDown); }
  lemma SmearedSurvives() ensures Strip("smeared") != "" { StripKeepsHead("smeared"); }
  lemma SuffixSurvives() ensures Strip(AntiOverlapSuffix) != "" { StripKeepsHead(AntiOverlapSuffix); }

  /** Fixed fragments around a collection label can be named exactly when the label can. */
  lemma ThreePartNameableIff(a: string, l: string, b: string)
    requires a != "" && Strip(a) != "" && b != "" && Strip(b) != ""
    ensures Nameable([Some(a), Some(l), Some(b)]) <==> LabelNameable(l)
  {
    var parts := [Some(a), Some(l), Some(b)];
    NameSucceedsIff(parts);
    if LabelNameable(l) {
      forall i | 0 <= i < 3 && !Skipped(parts[i]) ensures Strip(parts[i].value) != "" { }
    } else {
      assert !Skipped(parts[1]) && Strip(parts[1].value) == "";
    }
  }

  lemma TwoPartNameableIff(a: string, b: string)
    requires (a != "" && Strip(a) != "") || (b != "" && Strip(b) != "")
    ensures Nameable([Some(a), Some(b)]) <==> LabelNameable(a) && LabelNameable(b)
  {
    var parts := [Some(a), Some(b)];
    NameSucceedsIff(parts);
    if LabelNameable(a) && LabelNameable(b) {
      forall i | 0 <= i < 2 && !Skipped(parts[i]) ensures Strip(parts[i].value) != "" { }
    } else if !LabelNameable(a) {
      assert !Skipped(parts[0]) && Strip(parts[0].value) == "";
    } else {
      assert !Skipped(parts[1]) && Strip(parts[1].value) == "";
    }
  }

  lemma ShiftNameableIff(l: string)
    ensures ShiftNameable(l) <==> LabelNameable(l)
  {
    ShiftedSurvives();
    EnUpSurvives();
    EnDownSurvives();
    ThreePartNameableIff("shifted", l, EnUp);
    ThreePartNameableIff("shifted", l, EnDown);
  }

  lemma FilterNameableIff(c: Config)
    ensures Nameable(FilterParts(c)) <==> LabelNameable(c.jetCollection)
  {
    SuffixSurvives();
    TwoPartNameableIff(c.jetCollection, AntiOverlapSuffix);
  }

  lemma SmearNameableIff(c: Config)
    ensures Nameable(SmearParts(c)) <==> LabelNameable(c.jetCollection)
  {
    SmearedSurvives();
    TwoPartNameableIff("smeared", c.jetCollection);
  }

  /** A present channel whose collection label can be used in a name. */
  predicate CollectionNameable(c: Config, ch: Channel)
  {
    Collection(c, ch).Some? ==> LabelNameable(Collection(c, ch).value)
  }

  /** The jet modules can be named exactly when the jet collection label can. */
  lemma JetNamesValidIff(c: Config)
    ensures JetNamesValid(c) <==> LabelNameable(c.jetCollection)
  {
    FilterNameableIff(c);
    SmearNameableIff(c);
    ShiftNameableIff(c.jetCollection);
  }

  lemma ChannelNameableIff(c: Config, ch: Channel)
    ensures ChannelNameable(c, ch) <==> CollectionNameable(c, ch)
  {
    if Collection(c, ch).Some? {
      ShiftNameableIff(Collection(c, ch).value);
    }
  }

  /**
   * `toolCode` can name every module exactly when the jet collection and
   * every present channel's collection are empty or survive stripping; a
   * collection such as "clean" or "selected" makes it fail.
   */
  lemma NamesValidIff(c: Config)
    ensures NamesValid(c) <==>
      && LabelNameable(c.jetCollection)
      && CollectionNameable(c, Electron) && CollectionNameable(c, Photon)
      && CollectionNameable(c, Muon) && CollectionNameable(c, Tau)
  {
    JetNamesValidIff(c);
    ChannelNameableIff(c, Electron);
    ChannelNameableIff(c, Photon);
    ChannelNameableIff(c, Muon);
    ChannelNameableIff(c, Tau);
  }

  /** A jet collection labelled "clean" (or "selected") cannot be named: `toolCode` fails on the first name. */
  lemma CleanJetsUnnameable(c: Config)
    requires c.jetCollection == "clean"
    ensures !JetNamesValid(c)
  {
    assert "clean" == [] + "clean" + [];
    NoCandidateUnchanged("clean", "selected");
    RemoveAllLeftmost([], "clean", []);
    JetNamesValidIff(c);
  }

  /** The default configuration can be named. */
  lemma DefaultsNameable()
    ensures NamesValid(Defaults)
  {
    StripKeepsChar("cleanPatJets", 'P');
    StripKeepsChar("cleanPatElectrons", 'P');
    StripKeepsChar("cleanPatMuons", 'P');
    StripKeepsChar("cleanPatTaus", 'P');
    NamesValidIff(Defaults);
  }

  // ---------------------------------------------------------------------------
  // The collections the anti-overlap filter keeps
  // ---------------------------------------------------------------------------

  /** The filter's exclusion list holds exactly the collections that are not `None`. */
  lemma {:induction false} PresentMembers(opts: seq<Option<string>>, x: string)
    ensures x in Present(opts) <==> Some(x) in opts
    decreases |opts|
  {
    if opts != [] {
      var init := opts[..|opts| - 1];
      PresentMembers(init, x);
      assert opts == init + [opts[|opts| - 1]];
    }
  }

  /** The collection of a channel that is on, as a one-element list; nothing for a channel that is off. */
  function IfPresent(o: Option<string>): seq<string>
  {
    if o.Some? then [o.value] else []
  }

  /**
   * The collections the filter keeps jets away from: the electron, photon,
   * muon and tau collections that are not `None`, in that order.
   */
  lemma CollectionsForJetCleaning(c: Config)
    ensures Present(Collections(c)) ==
      IfPresent(c.electronCollection) + IfPresent(c.photonCollection)
      + IfPresent(c.muonCollection) + IfPresent(c.tauCollection)
  {
    var e, p, m, t := c.electronCollection, c.photonCollection, c.muonCollection, c.tauCollection;
    PresentSnoc([], e);
    PresentSnoc([e], p);
    PresentSnoc([e, p], m);
    PresentSnoc([e, p, m], t);
    assert [e] == [] + [e] && [e, p] == [e] + [p] && [e, p, m] == [e, p] + [m] && [e, p, m, t] == [e, p, m] + [t];
  }

  /** The number of channels that are on. */
  function PresentCount(c: Config): (n: nat)
    ensures n <= 4
  {
    |IfPresent(c.electronCollection)| + |IfPresent(c.photonCollection)|
    + |IfPresent(c.muonCollection)| + |IfPresent(c.tauCollection)|
  }

  /**
   * `PresentCount` is the length of the filter's exclusion list; it is zero
   * exactly when every channel is off.
   */
  lemma PresentCountIsExclusions(c: Config)
    ensures |Present(Collections(c))| == PresentCount(c)
    ensures PresentCount(c) == 0 <==>
      c.electronCollection.None? && c.photonCollection.None? && c.muonCollection.None? && c.tauCollection.None?
  {
    CollectionsForJetCleaning(c);
  }

  /** With the default parameters the filter keeps electrons, muons and taus apart from jets. */
  lemma DefaultCollectionsForJetCleaning()
    ensures Present(Collections(Defaults)) == ["cleanPatElectrons", "cleanPatMuons", "cleanPatTaus"]
  {
    CollectionsForJetCleaning(Defaults);
  }

  // ---------------------------------------------------------------------------
  // Appended labels
  // ---------------------------------------------------------------------------

  /** An operation that appends exactly one label. */
  predicate Appending(op: Op)
  {
    op.Add? || op.AddClone? || op.Splice?
  }

  /** A list of operations that each append one label appends one label per operation, in order. */
  lemma {:induction false} SequencedNames(ops: seq<Op>)
    requires forall i :: 0 <= i < |ops| ==> Appending(ops[i])
    ensures |Sequenced(ops)| == |ops|
    ensures forall i :: 0 <= i < |ops| ==> Appends(ops[i]) == [Sequenced(ops)[i]]
    decreases |ops|
  {
    if ops != [] {
      var init := ops[..|ops| - 1];
      SequencedNames(init);
    }
  }

  /** Two operations, each appending one label. */
  lemma SequencedPair(a: Op, b: Op)
    ensures Sequenced([a, b]) == Appends(a) + Appends(b)
  {
    SequencedSingle(a);
    SequencedSingle(b);
    SequencedConcat([a], [b]);
    assert [a] + [b] == [a, b];
  }

  // ---------------------------------------------------------------------------
  // Shift pairs
  // ---------------------------------------------------------------------------

  /**
   * A shift pair appends the up module and then its down clone, which is
   * the up module with only `shiftBy` replaced by `-varyByNsigmas`.
   */
  lemma ShiftPairMirror(c: Config, upName: string, downName: string, up: Module)
    ensures var ops := ShiftPair(c, upName, downName, up);
      && |ops| == 2 && Sequenced(ops) == [upName, downName]
      && ops[0] == Add(upName, up)
      && ops[1] == Add(downName, up.(params := up.params["shiftBy" := DoubleParam(-c.varyByNsigmas)]))
  {
    var ops := ShiftPair(c, upName, downName, up);
    SequencedPair(ops[0], ops[1]);
    assert up.params + ShiftDown(c) == up.params["shiftBy" := DoubleParam(-c.varyByNsigmas)];
  }

  /**
   * A channel that is off appends nothing; one that is on appends its up
   * module, reading its collection and shifting by `+varyByNsigmas`, then
   * the mirrored down module.
   */
  lemma ChannelShiftPair(c: Config, ch: Channel)
    requires ChannelNameable(c, ch)
    ensures Collection(c, ch).None? <==> ChannelOps(c, ch) == []
    ensures Collection(c, ch).Some? ==>
      var l := Collection(c, ch).value;
      var ops := ChannelOps(c, ch);
      var up := ShiftedParticles(c, ch, l);
      && ops == ShiftPair(c, ShiftedName(l, EnUp), ShiftedName(l, EnDown), up)
      && up.params["src"] == TagParam(Tag(l))
      && up.params["shiftBy"] == DoubleParam(c.varyByNsigmas)
      && Sequenced(ops) == [ShiftedName(l, EnUp), ShiftedName(l, EnDown)]
  {
    if Collection(c, ch).Some? {
      var l := Collection(c, ch).value;
      ShiftPairMirror(c, ShiftedName(l, EnUp), ShiftedName(l, EnDown), ShiftedParticles(c, ch, l));
    }
  }

  /** Each channel's uncertainty: two barrel/endcap bins for electrons and photons, one value for muons and taus. */
  lemma ChannelUncertainties(c: Config, l: string)
    ensures ShiftedParticles(c, Electron, l).params["binning"] == BinsParam([Bin("isEB", 0.01), Bin("!isEB", 0.025)])
    ensures ShiftedParticles(c, Photon, l).params["binning"] == BinsParam([Bin("isEB = true", 0.01), Bin("isEB = false", 0.025)])
    ensures ShiftedParticles(c, Muon, l).params["uncertainty"] == DoubleParam(0.01)
    ensures ShiftedParticles(c, Tau, l).params["uncertainty"] == DoubleParam(0.03)
  {
  }

  /** The jets without smearing: the filter, then the shift pair reading the filter's output. */
  lemma JetWiringUnsmeared(c: Config, filterName: string, smearName: string, upName: string, downName: string)
    requires !c.doSmearJets
    ensures var ops := JetChain(c, filterName, smearName, upName, downName);
      && |ops| == 3 && Sequenced(ops) == [filterName, upName, downName]
      && ops[0] == Add(filterName, AntiOverlapFilter(c))
      && ops[1].Add? && ops[2].Add?
      && ops[1].added.plugin == "ShiftedPATJetProducer"
      && ops[1].added.params["src"] == TagParam(Tag(filterName))
      && ops[1].added.params["shiftBy"] == DoubleParam(c.varyByNsigmas)
      && ops[2].added == ops[1].added.(params := ops[1].added.params["shiftBy" := DoubleParam(-c.varyByNsigmas)])
  {
    var ops := JetChain(c, filterName, smearName, upName, downName);
    var up := ShiftedJets(c, filterName);
    ShiftPairMirror(c, upName, downName, up);
    assert ops[1] == Add(upName, up);
    SequencedNames(ops);
  }

  /** The jets with smearing: the filter, the smeared jets reading it, then the shift pair reading the smeared jets. */
  lemma JetWiringSmeared(c: Config, filterName: string, smearName: string, upName: string, downName: string)
    requires c.doSmearJets
    ensures var ops := JetChain(c, filterName, smearName, upName, downName);
      && |ops| == 4 && Sequenced(ops) == [filterName, smearName, upName, downName]
      && ops[0] == Add(filterName, AntiOverlapFilter(c))
      && ops[1].Add? && ops[2].Add? && ops[3].Add?
      && ops[1].added.plugin == "SmearedPATJetProducer"
      && ops[1].added.params["src"] == TagParam(Tag(filterName))
      && ops[2].added.plugin == "ShiftedPATJetProducer"
      && ops[2].added.params["src"] == TagParam(Tag(smearName))
      && ops[2].added.params["shiftBy"] == DoubleParam(c.varyByNsigmas)
      && ops[3].added == ops[2].added.(params := ops[2].added.params["shiftBy" := DoubleParam(-c.varyByNsigmas)])
  {
    var ops := JetChain(c, filterName, smearName, upName, downName);
    var up := ShiftedJets(c, smearName);
    ShiftPairMirror(c, upName, downName, up);
    assert ops[2] == Add(upName, up);
    SequencedNames(ops);
  }

  // ---------------------------------------------------------------------------
  // Unclustered energy
  // ---------------------------------------------------------------------------

  lemma UnclusteredSourcesSplit()
    ensures UnclusteredSources == [] + [UnclusteredSources[0]] + [UnclusteredSources[1]] + [UnclusteredSources[2]]
    ensures UnclusteredSources[..0] == [] && UnclusteredSources[..1] == [UnclusteredSources[0]]
    ensures UnclusteredSources[..2] == [UnclusteredSources[0], UnclusteredSources[1]]
  {
  }

  /**
   * The inputs collected for one direction: the shifted candidate
   * correction, the "type2" and "offset" outputs of the shifted type-1+2 jet
   * correction, and the "type2" output of the shifted type-2 jet correction.
   */
  lemma UnclusteredInputsFor(dir: string)
    ensures var a, b, d := UnclusteredSources[0], UnclusteredSources[1], UnclusteredSources[2];
      UnclusteredTags(UnclusteredSources, dir) == [
        InputTag(UnclusteredName(a, dir), ""),
        InputTag(UnclusteredName(b, dir), "type2"),
        InputTag(UnclusteredName(b, dir), "offset"),
        InputTag(UnclusteredName(d, dir), "type2")]
  {
    var a, b, d := UnclusteredSources[0], UnclusteredSources[1], UnclusteredSources[2];
    UnclusteredSourcesSplit();
    UnclusteredTagsSnoc([], a, dir);
    UnclusteredTagsSnoc([a], b, dir);
    UnclusteredTagsSnoc([a, b], d, dir);
    assert [a] == [] + [a] && [a, b] == [a] + [b] && [a, b, d] == [a, b] + [d];
    assert UnclusteredTags([], dir) == [];
    var ta := InstanceTags(UnclusteredName(a, dir), a.instances);
    assert ta == [InputTag(UnclusteredName(a, dir), "")];
    InstancesOfJetCorr(dir);
    var td := InstanceTags(UnclusteredName(d, dir), d.instances);
    assert td == [InputTag(UnclusteredName(d, dir), "type2")];
  }

  /** The type-1+2 jet correction contributes its "type2" and its "offset" output, in that order. */
  lemma InstancesOfJetCorr(dir: string)
    ensures var b := UnclusteredSources[1];
      InstanceTags(UnclusteredName(b, dir), b.instances) ==
        [InputTag(UnclusteredName(b, dir), "type2"), InputTag(UnclusteredName(b, dir), "offset")]
  {
    var b := UnclusteredSources[1];
    var ts := InstanceTags(UnclusteredName(b, dir), b.instances);
    assert |ts| == 2 && ts[0] == InputTag(UnclusteredName(b, dir), "type2") && ts[1] == InputTag(UnclusteredName(b, dir), "offset");
  }

  /** The inputs of the up-shifted unclustered-energy corrections: four tags. */
  lemma UnclusteredInputsUp()
    ensures UnclusteredTags(UnclusteredSources, EnUp) == [
      InputTag("pfCandMETcorrUnclusteredEnUp", ""),
      InputTag("patPFJetMETtype1p2CorrUnclusteredEnUp", "type2"),
      InputTag("patPFJetMETtype1p2CorrUnclusteredEnUp", "offset"),
      InputTag("patPFJetMETtype2CorrUnclusteredEnUp", "type2")]
  {
    UnclusteredInputsFor(EnUp);
    UnclusteredNamesSpelled(EnUp);
    assert "pfCandMETcorrUnclustered" + EnUp == "pfCandMETcorrUnclusteredEnUp";
    assert "patPFJetMETtype1p2CorrUnclustered" + EnUp == "patPFJetMETtype1p2CorrUnclusteredEnUp";
    assert "patPFJetMETtype2CorrUnclustered" + EnUp == "patPFJetMETtype2CorrUnclusteredEnUp";
  }

  /** The inputs of the down-shifted unclustered-energy corrections: four tags. */
  lemma UnclusteredInputsDown()
    ensures UnclusteredTags(UnclusteredSources, EnDown) == [
      InputTag("pfCandMETcorrUnclusteredEnDown", ""),
      InputTag("patPFJetMETtype1p2CorrUnclusteredEnDown", "type2"),
      InputTag("patPFJetMETtype1p2CorrUnclusteredEnDown", "offset"),
      InputTag("patPFJetMETtype2CorrUnclusteredEnDown", "type2")]
  {
    UnclusteredInputsFor(EnDown);
    UnclusteredNamesSpelled(EnDown);
    assert "pfCandMETcorrUnclustered" + EnDown == "pfCandMETcorrUnclusteredEnDown";
    assert "patPFJetMETtype1p2CorrUnclustered" + EnDown == "patPFJetMETtype1p2CorrUnclusteredEnDown";
    assert "patPFJetMETtype2CorrUnclustered" + EnDown == "patPFJetMETtype2CorrUnclusteredEnDown";
  }

  /** The names of the unclustered-energy shift modules of one direction. */
  lemma UnclusteredNamesSpelled(dir: string)
    requires dir == EnUp || dir == EnDown
    ensures var a, b, d := UnclusteredSources[0], UnclusteredSources[1], UnclusteredSources[2];
      && UnclusteredName(a, dir) == "pfCandMETcorrUnclustered" + dir
      && UnclusteredName(b, dir) == "patPFJetMETtype1p2CorrUnclustered" + dir
      && UnclusteredName(d, dir) == "patPFJetMETtype2CorrUnclustered" + dir
  {
  }

  /** The shift pair of one unclustered-energy source. */
  function SourcePair(c: Config, src: CorrSource): seq<Op>
  {
    ShiftPair(c, UnclusteredName(src, EnUp), UnclusteredName(src, EnDown), UnclusteredShift(c, src))
  }

  /** The loop over the three sources appends their shift pairs in order. */
  lemma UnclusteredShiftOpsSplit(c: Config)
    ensures var srcs := UnclusteredSources;
      UnclusteredShiftOps(c, srcs) == SourcePair(c, srcs[0]) + SourcePair(c, srcs[1]) + SourcePair(c, srcs[2])
  {
    var a, b, d := UnclusteredSources[0], UnclusteredSources[1], UnclusteredSources[2];
    UnclusteredSourcesSplit();
    assert [a] == [] + [a] && [a, b] == [a] + [b] && [a, b, d] == [a, b] + [d];
    UnclusteredShiftOpsSnoc(c, [], a);
    UnclusteredShiftOpsSnoc(c, [a], b);
    UnclusteredShiftOpsSnoc(c, [a, b], d);
  }

  /**
   * At position `i` an up-shift module shifting by `+varyByNsigmas`, then its
   * down mirror, which differs from it only in shifting by `-varyByNsigmas`.
   */
  predicate MirroredAt(c: Config, ops: seq<Op>, i: nat)
  {
    && i + 1 < |ops| && ops[i].Add? && ops[i + 1].Add?
    && "shiftBy" in ops[i].added.params
    && ops[i].added.params["shiftBy"] == DoubleParam(1.0 * c.varyByNsigmas)
    && ops[i + 1].added == ops[i].added.(params := ops[i].added.params["shiftBy" := DoubleParam(-c.varyByNsigmas)])
  }

  /**
   * For each of the three sources in order, its up shift and then its down
   * shift, which shift by `+varyByNsigmas` and `-varyByNsigmas` and differ
   * in nothing else.
   */
  lemma UnclusteredShiftOrder(c: Config)
    ensures var a, b, d := UnclusteredSources[0], UnclusteredSources[1], UnclusteredSources[2];
      Sequenced(UnclusteredShiftOps(c, UnclusteredSources)) == [
        UnclusteredName(a, EnUp), UnclusteredName(a, EnDown),
        UnclusteredName(b, EnUp), UnclusteredName(b, EnDown),
        UnclusteredName(d, EnUp), UnclusteredName(d, EnDown)]
    ensures var ops := UnclusteredShiftOps(c, UnclusteredSources);
      |ops| == 6 && MirroredAt(c, ops, 0) && MirroredAt(c, ops, 2) && MirroredAt(c, ops, 4)
  {
    var a, b, d := UnclusteredSources[0], UnclusteredSources[1], UnclusteredSources[2];
    var pa, pb, pd := SourcePair(c, a), SourcePair(c, b), SourcePair(c, d);
    UnclusteredShiftOpsSplit(c);
    ShiftPairMirror(c, UnclusteredName(a, EnUp), UnclusteredName(a, EnDown), UnclusteredShift(c, a));
    ShiftPairMirror(c, UnclusteredName(b, EnUp), UnclusteredName(b, EnDown), UnclusteredShift(c, b));
    ShiftPairMirror(c, UnclusteredName(d, EnUp), UnclusteredName(d, EnDown), UnclusteredShift(c, d));
    SequencedConcat(pa, pb);
    SequencedConcat(pa + pb, pd);
    var ops := pa + pb + pd;
    assert ops[0] == pa[0] && ops[1] == pa[1] && ops[2] == pb[0] && ops[3] == pb[1] && ops[4] == pd[0] && ops[5] == pd[1];
  }

  // ---------------------------------------------------------------------------
  // Propagation to MET
  // ---------------------------------------------------------------------------

  /**
   * `_propagateMEtUncertainties` appends the up correction input, the up
   * MET, the down correction input and the down MET, in that order; each
   * down module differs from its up module in one parameter only.
   */
  lemma PropagateShape(particles: string, particleType: string, up: string, down: string, met: string)
    ensures var ops := PropagateOps(particles, particleType, up, down, met);
      && Sequenced(ops) == [CorrName(particleType, EnUp), met + particleType + EnUp,
                            CorrName(particleType, EnDown), met + particleType + EnDown]
      && ops[0].added.params == map["srcOriginal" := TagParam(Tag(particles)), "srcShifted" := TagParam(Tag(up))]
      && ops[2].added.params == ops[0].added.params["srcShifted" := TagParam(Tag(down))]
      && ops[1].source == met
      && ops[1].overrides == map["src" := TagParam(Tag(met)), "srcType1Corrections" := TagsParam([Tag(CorrName(particleType, EnUp))])]
      && ops[3].source == met + particleType + EnUp
      && ops[3].overrides == map["srcType1Corrections" := TagsParam([Tag(CorrName(particleType, EnDown))])]
  {
    var ops := PropagateOps(particles, particleType, up, down, met);
    SequencedNames(ops);
  }

  /** The loop over corrected METs visits the type-1 MET, then the type-1+2 MET. */
  lemma CrossProductOrder(c: Config)
    requires NamesValid(c)
    ensures CrossProductOps(c, CorrectedMets) == MetPropagation(c, Type1Met) + MetPropagation(c, Type1p2Met)
  {
    CrossProductFirst(c);
    CrossProductSnoc(c, [Type1Met], Type1p2Met);
    assert [Type1Met] + [Type1p2Met] == CorrectedMets;
  }

  lemma CrossProductFirst(c: Config)
    requires NamesValid(c)
    ensures CrossProductOps(c, [Type1Met]) == MetPropagation(c, Type1Met)
  {
    CrossProductSnoc(c, [], Type1Met);
    assert [] + [Type1Met] == [Type1Met];
  }

  /**
   * The correction-input names depend only on the particle type: the pass
   * for the type-1+2 MET registers the same two names again, with the same
   * modules, while its MET names differ from those of the first pass.
   */
  lemma CorrInputsRegisteredTwice(particles: string, t: string, up: string, down: string)
    ensures var a := PropagateOps(particles, t, up, down, Type1Met);
      var b := PropagateOps(particles, t, up, down, Type1p2Met);
      && |Sequenced(a + b)| == 8
      && Sequenced(a + b)[0] == Sequenced(a + b)[4] == CorrName(t, EnUp)
      && Sequenced(a + b)[2] == Sequenced(a + b)[6] == CorrName(t, EnDown)
      && a[0] == b[0] && a[2] == b[2]
      && a[1].name != b[1].name && a[3].name != b[3].name
  {
    var a := PropagateOps(particles, t, up, down, Type1Met);
    var b := PropagateOps(particles, t, up, down, Type1p2Met);
    PropagateShape(particles, t, up, down, Type1Met);
    PropagateShape(particles, t, up, down, Type1p2Met);
    SequencedConcat(a, b);
    assert (Type1Met + t + EnUp)[8] != (Type1p2Met + t + EnUp)[8];
    assert (Type1Met + t + EnDown)[8] != (Type1p2Met + t + EnDown)[8];
  }

  /** Registering the same module under the same name again changes no module and appends the name again. */
  lemma ReRegistration(s: ProcessState, name: string, m: Module)
    ensures Apply(Apply(s, Add(name, m)), Add(name, m)).modules == Apply(s, Add(name, m)).modules
    ensures UncertaintySequence in s.sequences ==>
      Apply(Apply(s, Add(name, m)), Add(name, m)).sequences[UncertaintySequence] == s.sequences[UncertaintySequence] + [name, name]
  {
    var s1 := Apply(s, Add(name, m));
    assert s1.modules == s.modules[name := m];
    assert UncertaintySequence in s1.sequences;
  }

  // ---------------------------------------------------------------------------
  // Name collisions
  // ---------------------------------------------------------------------------

  /** The default configuration with "selectedPatJets" as the tau collection. */
  const SelectedTausConfig: Config := Defaults.(tauCollection := Some("selectedPatJets"))

  /**
   * A channel whose collection strips to the same fragment as the jet
   * collection gets the jets' shifted name, and `setattr` replaces the
   * shifted jets by the shifted particles: with "cleanPatJets" as jets and
   * "selectedPatJets" as taus, "shiftedPatJetsEnUp" ends up a tau shifter,
   * although the jet corrections are later cloned to read it as jets.
   */
  lemma ShiftedNameCollision(s: ProcessState, baseline: map<string, Module>)
    ensures NamesValid(SelectedTausConfig)
    ensures ShiftedName(SelectedTausConfig.jetCollection, EnUp) == "shiftedPatJetsEnUp"
    ensures Nameable(ShiftParts("selectedPatJets", EnUp)) && ShiftedName("selectedPatJets", EnUp) == "shiftedPatJetsEnUp"
    ensures "shiftedPatJetsEnUp" in Run(s, ShiftOps(SelectedTausConfig)).modules
    ensures Run(s, ShiftOps(SelectedTausConfig)).modules["shiftedPatJetsEnUp"]
      == ShiftedParticles(SelectedTausConfig, Tau, "selectedPatJets")
    ensures ShiftedParticles(SelectedTausConfig, Tau, "selectedPatJets").plugin
      != ShiftedJets(SelectedTausConfig, LastJetName(SelectedTausConfig)).plugin
    ensures Run(s, Plan(SelectedTausConfig, baseline))
      == Run(Run(s, ShiftOps(SelectedTausConfig)), PropagationOps(SelectedTausConfig, baseline))
    ensures |PropagationOps(SelectedTausConfig, baseline)| > 5
    ensures PropagationOps(SelectedTausConfig, baseline)[5]
      == AddClone(SelectedJetsType1p2 + EnUp, SelectedJetsType1p2, SrcOverride("shiftedPatJetsEnUp"))
  {
    SelectedTausNameable();
    CollisionWhenTausSelected(s, SelectedTausConfig, baseline);
  }

  /** The collision for any configuration with "cleanPatJets" as jets and "selectedPatJets" as taus. */
  lemma CollisionWhenTausSelected(s: ProcessState, c: Config, baseline: map<string, Module>)
    requires NamesValid(c) && c.jetCollection == "cleanPatJets" && c.tauCollection == Some("selectedPatJets")
    ensures ShiftedName(c.jetCollection, EnUp) == "shiftedPatJetsEnUp"
    ensures Nameable(ShiftParts("selectedPatJets", EnUp)) && ShiftedName("selectedPatJets", EnUp) == "shiftedPatJetsEnUp"
    ensures "shiftedPatJetsEnUp" in Run(s, ShiftOps(c)).modules
    ensures Run(s, ShiftOps(c)).modules["shiftedPatJetsEnUp"] == ShiftedParticles(c, Tau, "selectedPatJets")
    ensures ShiftedParticles(c, Tau, "selectedPatJets").plugin != ShiftedJets(c, LastJetName(c)).plugin
    ensures Run(s, Plan(c, baseline)) == Run(Run(s, ShiftOps(c)), PropagationOps(c, baseline))
    ensures |PropagationOps(c, baseline)| > 5
    ensures PropagationOps(c, baseline)[5]
      == AddClone(SelectedJetsType1p2 + EnUp, SelectedJetsType1p2, SrcOverride("shiftedPatJetsEnUp"))
  {
    PatJetsShiftedNames();
    var tau := ShiftedParticles(c, Tau, "selectedPatJets");
    var prefix := JetOps(c) + ChannelOps(c, Electron) + ChannelOps(c, Photon) + ChannelOps(c, Muon);
    assert ChannelOps(c, Tau) == ShiftPair(c, "shiftedPatJetsEnUp", "shiftedPatJetsEnDown", tau);
    LastPairWins(s, prefix, c, "shiftedPatJetsEnUp", "shiftedPatJetsEnDown", tau);
    TauShifterIsNoJetShifter(c, "selectedPatJets", LastJetName(c));
    PropagationReadsShiftedJets(s, c, baseline);
  }

  /**
   * The propagation starts from the state the shift stage leaves, and its
   * first clone after the baseline reads the jets under their shifted-up
   * name, whatever module that name holds by then.
   */
  lemma PropagationReadsShiftedJets(s: ProcessState, c: Config, baseline: map<string, Module>)
    requires NamesValid(c)
    ensures Run(s, Plan(c, baseline)) == Run(Run(s, ShiftOps(c)), PropagationOps(c, baseline))
    ensures |PropagationOps(c, baseline)| > 5
    ensures PropagationOps(c, baseline)[5]
      == AddClone(SelectedJetsType1p2 + EnUp, SelectedJetsType1p2, SrcOverride(ShiftedName(c.jetCollection, EnUp)))
  {
    RunConcat(s, ShiftOps(c), PropagationOps(c, baseline));
    PropagationFirstClone(c, baseline);
  }

  lemma PropagationFirstClone(c: Config, baseline: map<string, Module>)
    requires NamesValid(c)
    ensures |PropagationOps(c, baseline)| > 5
    ensures PropagationOps(c, baseline)[5]
      == AddClone(SelectedJetsType1p2 + EnUp, SelectedJetsType1p2, SrcOverride(ShiftedName(c.jetCollection, EnUp)))
  {
    var up, down := ShiftedName(c.jetCollection, EnUp), ShiftedName(c.jetCollection, EnDown);
    var start := BaselineOps(c, baseline) + EtaSplitOps(c, up, down);
    assert |start| > 5 && start[5] == AddClone(SelectedJetsType1p2 + EnUp, SelectedJetsType1p2, SrcOverride(up)) by {
      var eta := EtaSplitOps(c, up, down);
      assert |BaselineOps(c, baseline)| == 5;
      assert eta[0] == JetSelectionOps(up, down)[0];
    }
    assert PropagationOps(c, baseline) == start + UnclusteredOps(c) + CrossProductOps(c, CorrectedMets);
  }

  lemma TauShifterIsNoJetShifter(c: Config, taus: string, jets: string)
    ensures ShiftedParticles(c, Tau, taus).plugin != ShiftedJets(c, jets).plugin
  {
    assert ShiftedParticles(c, Tau, taus).plugin[10] == 'T' && ShiftedJets(c, jets).plugin[10] == 'J';
  }

  /** The shifted names of the clean and the selected jets, as `toolCode` asks for them. */
  lemma PatJetsShiftedNames()
    ensures Nameable(ShiftParts("cleanPatJets", EnUp)) && ShiftedName("cleanPatJets", EnUp) == "shiftedPatJetsEnUp"
    ensures Nameable(ShiftParts("selectedPatJets", EnUp)) && ShiftedName("selectedPatJets", EnUp) == "shiftedPatJetsEnUp"
    ensures Nameable(ShiftParts("selectedPatJets", EnDown)) && ShiftedName("selectedPatJets", EnDown) == "shiftedPatJetsEnDown"
  {
    assert ShiftParts("cleanPatJets", EnUp) == [Some("shifted"), Some("cleanPatJets"), Some("EnUp")] by {
      ShiftedJetsName();
    }
    assert ShiftParts("selectedPatJets", EnUp) == [Some("shifted"), Some("selectedPatJets"), Some("EnUp")] by {
      SelectedPatJetsShiftedName();
    }
    assert ShiftParts("selectedPatJets", EnDown) == [Some("shifted"), Some("selectedPatJets"), Some("EnDown")] by {
      SelectedPatJetsShiftedDownName();
    }
    ShiftedJetsName();
    SelectedPatJetsShiftedName();
    SelectedPatJetsShiftedDownName();
  }

  lemma SelectedTausNameable()
    ensures NamesValid(SelectedTausConfig)
  {
    DefaultsNameable();
    NamesValidIff(Defaults);
    StripSelectedPatJets();
    NamesValidIff(SelectedTausConfig);
  }

  /** The up module of the last shift pair is the one registered under its name. */
  lemma LastPairWins(s: ProcessState, prefix: seq<Op>, c: Config, upName: string, downName: string, up: Module)
    requires upName != downName
    ensures upName in Run(s, prefix + ShiftPair(c, upName, downName, up)).modules
    ensures Run(s, prefix + ShiftPair(c, upName, downName, up)).modules[upName] == up
  {
    var pair := ShiftPair(c, upName, downName, up);
    RunConcat(s, prefix, pair);
    RunPair(Run(s, prefix), pair[0], pair[1]);
  }
}
