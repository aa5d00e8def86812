/**
 * The tool `RunMEtUncertainties` and the `cms.Process` it extends, as
 * objects whose state the tool's methods change in place. Every method that
 * changes the process is proved to leave it as the operations of the module
 * `Graph` say; what those operations do is proved in `GraphProperties`.
 */
module MetUncertaintyTools {
  import opened Wrappers
  import opened Naming
  import opened Parameters
  import opened Graph

  /** Why `toolCode` stops. */
  datatype ToolError =
    | NameFailure(cause: NameError)  // raised inside `_addModuleToSequence`
    | NoDefaultSequence              // the `ValueError` raised when `patDefaultSequence` is missing

  /** The names of a collection shifted up and shifted down. */
  datatype Shifted = Shifted(up: string, down: string)

  /** The names `toolCode` holds after shifting: the jets, and each particle channel that is on. */
  datatype ShiftedCollections = ShiftedCollections(
    jets: Shifted, electron: Option<Shifted>, photon: Option<Shifted>, muon: Option<Shifted>, tau: Option<Shifted>)

  /** What `toolCode` holds for a channel after shifting it: nothing for a channel that is off. */
  function ChannelShifts(c: Config, ch: Channel): Option<Shifted>
    requires ChannelNameable(c, ch)
  {
    match Collection(c, ch)
    case None => None
    case Some(l) => Some(Shifted(ShiftedName(l, EnUp), ShiftedName(l, EnDown)))
  }

  function AllShifts(c: Config): ShiftedCollections
    requires NamesValid(c)
  {
    ShiftedCollections(
      Shifted(ShiftedName(c.jetCollection, EnUp), ShiftedName(c.jetCollection, EnDown)),
      ChannelShifts(c, Electron), ChannelShifts(c, Photon), ChannelShifts(c, Muon), ChannelShifts(c, Tau))
  }

  // ---------------------------------------------------------------------------
  // The process
  // ---------------------------------------------------------------------------

  /** A `cms.Process`: its module attributes and its sequence attributes (as lists of labels). */
  class Process {
    var modules: map<string, Module>
    var sequences: map<string, seq<string>>

    constructor (modules: map<string, Module>, sequences: map<string, seq<string>>)
      ensures State() == ProcessState(modules, sequences)
    {
      this.modules := modules;
      this.sequences := sequences;
    }

    function State(): ProcessState
      reads this
    {
      ProcessState(modules, sequences)
    }

    /** `setattr(process, name, m)`: the attribute is added, or replaced when it exists. */
    method SetAttr(name: string, m: Module)
      modifies this
      ensures modules == old(modules)[name := m]
      ensures sequences == old(sequences)
    {
      modules := modules[name := m];
    }

    /** `process.<sequence> += process.<entry>`, the entry known by its label. */
    method AppendTo(sequence: string, entry: string)
      requires sequence in sequences
      modifies this
      ensures sequences == old(sequences)[sequence := old(sequences[sequence]) + [entry]]
      ensures modules == old(modules)
    {
      sequences := sequences[sequence := sequences[sequence] + [entry]];
    }

    /** `process.<name> = cms.Sequence()`. */
    method NewSequence(name: string)
      modifies this
      ensures sequences == old(sequences)[name := []]
      ensures modules == old(modules)
    {
      sequences := sequences[name := []];
    }

    /** `process.load(...)`: the modules the loaded configuration defines are added or replaced. */
    method Load(loaded: map<string, Module>)
      modifies this
      ensures modules == old(modules) + loaded
      ensures sequences == old(sequences)
    {
      modules := modules + loaded;
    }

    /** `process.<target>.<key> = value`. */
    method SetParameter(target: string, key: string, value: Param)
      requires target in modules
      modifies this
      ensures modules == old(modules)[target := Clone(old(modules[target]), map[key := value])]
      ensures sequences == old(sequences)
    {
      modules := modules[target := Clone(modules[target], map[key := value])];
    }
  }

  /** `process.<name> = m` followed by `process.metUncertaintySequence += process.<name>`. */
  method Register(process: Process, name: string, m: Module)
    requires UncertaintySequence in process.sequences
    modifies process
    ensures process.State() == Apply(old(process.State()), Add(name, m))
    ensures process.modules == old(process.modules)[name := m]
    ensures UncertaintySequence in process.sequences
  {
    process.SetAttr(name, m);
    process.AppendTo(UncertaintySequence, name);
  }

  /** `process.<name> = process.<source>.clone(...)` followed by `process.metUncertaintySequence += process.<name>`. */
  method RegisterClone(process: Process, name: string, source: string, overrides: map<string, Param>)
    requires UncertaintySequence in process.sequences && source in process.modules
    modifies process
    ensures process.State() == Apply(old(process.State()), AddClone(name, source, overrides))
    ensures process.modules == old(process.modules)[name := Clone(old(process.modules[source]), overrides)]
    ensures UncertaintySequence in process.sequences
  {
    Register(process, name, Clone(process.modules[source], overrides));
  }

  /** One more operation done: the state is the run of the longer list, which stays runnable. */
  lemma Done(s0: ProcessState, done: seq<Op>, op: Op, s: ProcessState)
    requires Runnable(s0, done) && Ready(Run(s0, done), op)
    requires s == Apply(Run(s0, done), op)
    ensures s == Run(s0, done + [op]) && Runnable(s0, done + [op])
  {
    RunSnoc(s0, done, op);
  }

  /** A stage done after the earlier ones: the state is the run of both, which stays runnable. */
  lemma StageDone(s0: ProcessState, done: seq<Op>, stage: seq<Op>, s: ProcessState)
    requires Runnable(s0, done) && Runnable(Run(s0, done), stage)
    requires s == Run(Run(s0, done), stage)
    ensures s == Run(s0, done + stage) && Runnable(s0, done + stage)
  {
    RunConcat(s0, done, stage);
  }

  /** A name that ends in a shift direction is not the name of a corrected MET. */
  lemma DirectionNameNotMet(prefix: string, dir: string)
    requires dir == EnUp || dir == EnDown
    ensures prefix + dir !in CorrectedMets
  {
    var n := prefix + dir;
    assert n[|n| - 1] == dir[|dir| - 1];
    assert Type1Met[|Type1Met| - 1] == 't' && Type1p2Met[|Type1p2Met| - 1] == 't';
  }

  // ---------------------------------------------------------------------------
  // The tool
  // ---------------------------------------------------------------------------

  class RunMEtUncertainties {
    /** The tool's `_parameters`. */
    var parameters: Config

    /** A new tool holds the default parameters. */
    constructor ()
      ensures parameters == Defaults
    {
      parameters := Defaults;
    }

    /**
     * `_addModuleToSequence`: the module `m` is registered under the name built
     * from `parts` and appended to `sequence`; when no name can be built the
     * process is left as it was.
     */
    method AddModuleToSequence(process: Process, m: Module, parts: seq<Option<string>>, sequence: string)
      returns (r: Result<string, NameError>)
      requires sequence in process.sequences
      modifies process
      ensures r == ModuleName(parts)
      ensures r.Success? ==> process.modules == old(process.modules)[r.value := m]
      ensures r.Success? ==> process.sequences == old(process.sequences)[sequence := old(process.sequences[sequence]) + [r.value]]
      ensures r.Success? && sequence == UncertaintySequence ==>
        process.State() == Apply(old(process.State()), Add(r.value, m))
      ensures r.Failure? ==> process.modules == old(process.modules) && process.sequences == old(process.sequences)
    {
      r := BuildModuleName(parts);
      if r.Success? {
        process.SetAttr(r.value, m);
        process.AppendTo(sequence, r.value);
      }
    }

    /**
     * `_propagateMEtUncertainties`: the shifted correction input of a
     * particle type and the corrected MET registered as `metLabel` re-run
     * with it, up and then down. The corrected METs themselves are not
     * replaced.
     */
    method PropagateMEtUncertainties(process: Process, particleCollection: string, particleType: string,
        particleCollectionEnUp: string, particleCollectionEnDown: string, correctedMET: Module, metLabel: string)
      requires metLabel in process.modules && process.modules[metLabel] == correctedMET
      requires UncertaintySequence in process.sequences
      modifies process
      ensures process.State() == Run(old(process.State()), PropagateOps(particleCollection, particleType,
        particleCollectionEnUp, particleCollectionEnDown, metLabel))
      ensures Runnable(old(process.State()), PropagateOps(particleCollection, particleType,
        particleCollectionEnUp, particleCollectionEnDown, metLabel))
      ensures old(process.modules).Keys <= process.modules.Keys
      ensures UncertaintySequence in process.sequences
      ensures forall met :: met in CorrectedMets && met in old(process.modules) ==>
        met in process.modules && process.modules[met] == old(process.modules[met])
    {
      ghost var s0 := process.State();
      ghost var done: seq<Op> := [];
      var moduleCorrEnUp := ParticleCorrInput(particleCollection, particleCollectionEnUp);
      var moduleCorrEnUpName := JetCorr + particleType + EnUp;
      DirectionNameNotMet(JetCorr + particleType, EnUp);
      Register(process, moduleCorrEnUpName, moduleCorrEnUp);
      Done(s0, done, Add(moduleCorrEnUpName, moduleCorrEnUp), process.State());
      done := done + [Add(moduleCorrEnUpName, moduleCorrEnUp)];

      var moduleMetEnUpName := metLabel + particleType + EnUp;
      var metOverride := MetOverride(metLabel, [Tag(moduleCorrEnUpName)]);
      DirectionNameNotMet(metLabel + particleType, EnUp);
      RegisterClone(process, moduleMetEnUpName, metLabel, metOverride);
      Done(s0, done, AddClone(moduleMetEnUpName, metLabel, metOverride), process.State());
      done := done + [AddClone(moduleMetEnUpName, metLabel, metOverride)];

      var moduleCorrEnDown := Clone(moduleCorrEnUp, map["srcShifted" := TagParam(Tag(particleCollectionEnDown))]);
      var moduleCorrEnDownName := JetCorr + particleType + EnDown;
      DirectionNameNotMet(JetCorr + particleType, EnDown);
      Register(process, moduleCorrEnDownName, moduleCorrEnDown);
      Done(s0, done, Add(moduleCorrEnDownName, moduleCorrEnDown), process.State());
      done := done + [Add(moduleCorrEnDownName, moduleCorrEnDown)];

      var moduleMetEnDownName := metLabel + particleType + EnDown;
      var corrOverride := CorrectionsOverride([Tag(moduleCorrEnDownName)]);
      DirectionNameNotMet(metLabel + particleType, EnDown);
      RegisterClone(process, moduleMetEnDownName, moduleMetEnUpName, corrOverride);
      Done(s0, done, AddClone(moduleMetEnDownName, moduleMetEnUpName, corrOverride), process.State());
      done := done + [AddClone(moduleMetEnDownName, moduleMetEnUpName, corrOverride)];
      assert done == PropagateOps(particleCollection, particleType,
        particleCollectionEnUp, particleCollectionEnDown, metLabel);
    }

    /**
     * `toolCode`, the loop over electrons, photons, muons and taus: the
     * configured collections, skipping those that are off, in that order.
     */
    method CollectionsForJetCleaning(c: Config) returns (collectionsForJetCleaning: seq<string>)
      ensures collectionsForJetCleaning == Present(Collections(c))
    {
      var collections := Collections(c);
      collectionsForJetCleaning := [];
      var i := 0;
      while i < |collections|
        invariant 0 <= i <= |collections|
        invariant collectionsForJetCleaning == Present(collections[..i])
      {
        PresentSnoc(collections[..i], collections[i]);
        assert collections[..i + 1] == collections[..i] + [collections[i]];
        if collections[i].Some? {
          collectionsForJetCleaning := collectionsForJetCleaning + [collections[i].value];
        }
        i := i + 1;
      }
      assert collections[..i] == collections;
    }

    /**
     * `toolCode`, first module: the jets not overlapping with the configured
     * electrons, photons, muons and taus, the present ones collected in that
     * order. Fails exactly when the filter cannot be named.
     */
    method AddAntiOverlapFilter(process: Process, c: Config) returns (r: Result<string, NameError>)
      requires UncertaintySequence in process.sequences
      modifies process
      ensures r == ModuleName(FilterParts(c))
      ensures r.Success? ==> process.State() == Apply(old(process.State()), Add(r.value, AntiOverlapFilter(c)))
      ensures old(process.modules).Keys <= process.modules.Keys
      ensures UncertaintySequence in process.sequences
    {
      var collectionsForJetCleaning := CollectionsForJetCleaning(c);
      var filter := Module(EDFilter, "PATJetAntiOverlapSelector", map[
        "src" := TagParam(Tag(c.jetCollection)),
        "srcNotToBeFiltered" := TagsParam(Tags(collectionsForJetCleaning)),
        "dRmin" := DoubleParam(c.dRjetCleaning),
        "filter" := BoolParam(false)]);
      r := AddModuleToSequence(process, filter, FilterParts(c), UncertaintySequence);
    }

    /**
     * `toolCode`, when smearing is on: the jets read from `src` smeared to
     * the resolution in data. Fails exactly when the module cannot be named.
     */
    method SmearJets(process: Process, c: Config, src: string) returns (r: Result<string, NameError>)
      requires UncertaintySequence in process.sequences
      modifies process
      ensures r == ModuleName(SmearParts(c))
      ensures r.Success? ==> process.State() == Apply(old(process.State()), Add(r.value, SmearedJets(c, src)))
      ensures old(process.modules).Keys <= process.modules.Keys
      ensures UncertaintySequence in process.sequences
    {
      var smearedJets := Module(EDProducer, "SmearedPATJetProducer", map[
        "src" := TagParam(Tag(src)),
        "inputFileName" := FileParam(c.jetSmearFileName),
        "lutName" := StringParam(c.jetSmearHistogram)]);
      r := AddModuleToSequence(process, smearedJets, SmearParts(c), UncertaintySequence);
    }

    /**
     * `toolCode`, jets before shifting: the anti-overlap filter and, when
     * smearing is on, the smeared jets reading it. Returns the last jet
     * collection; fails exactly when one of these modules cannot be named.
     */
    method CleanJets(process: Process, c: Config) returns (r: Result<string, NameError>)
      requires UncertaintySequence in process.sequences
      modifies process
      ensures r.Success? <==> Nameable(FilterParts(c)) && (c.doSmearJets ==> Nameable(SmearParts(c)))
      ensures r.Success? ==> r.value == (if c.doSmearJets then ModuleName(SmearParts(c)).value else ModuleName(FilterParts(c)).value)
      ensures r.Success? ==> process.State() == Run(old(process.State()), JetCleaning(c,
        ModuleName(FilterParts(c)).value, if c.doSmearJets then ModuleName(SmearParts(c)).value else ""))
      ensures r.Success? ==> Runnable(old(process.State()), JetCleaning(c,
        ModuleName(FilterParts(c)).value, if c.doSmearJets then ModuleName(SmearParts(c)).value else ""))
      ensures old(process.modules).Keys <= process.modules.Keys
      ensures UncertaintySequence in process.sequences
    {
      ghost var s0 := process.State();
      var filterName := AddAntiOverlapFilter(process, c);
      if filterName.Failure? {
        return Failure(filterName.error);
      }
      Done(s0, [], Add(filterName.value, AntiOverlapFilter(c)), process.State());
      r := filterName;
      if c.doSmearJets {
        var smeared := SmearJets(process, c, filterName.value);
        if smeared.Failure? {
          return Failure(smeared.error);
        }
        Done(s0, [Add(filterName.value, AntiOverlapFilter(c))], Add(smeared.value, SmearedJets(c, filterName.value)), process.State());
        r := smeared;
      }
    }

    /**
     * `toolCode`, jets: the anti-overlap filter, the jets optionally smeared,
     * then shifted up and down in energy, each module reading the one before.
     * Fails exactly when a jet module cannot be named.
     */
    method ShiftJets(process: Process, c: Config) returns (r: Result<Shifted, NameError>)
      requires UncertaintySequence in process.sequences
      modifies process
      ensures r.Success? <==> JetNamesValid(c)
      ensures r.Success? ==> r.value == Shifted(ShiftedName(c.jetCollection, EnUp), ShiftedName(c.jetCollection, EnDown))
      ensures r.Success? ==> process.State() == Run(old(process.State()), JetOps(c))
      ensures r.Success? ==> Runnable(old(process.State()), JetOps(c))
      ensures old(process.modules).Keys <= process.modules.Keys
      ensures UncertaintySequence in process.sequences
    {
      ghost var s0 := process.State();
      var lastJetCollection := CleanJets(process, c);
      if lastJetCollection.Failure? {
        return Failure(lastJetCollection.error);
      }
      var jetsEnUp := ShiftedJets(c, lastJetCollection.value);
      r := AddShiftPair(process, c, c.jetCollection, jetsEnUp);
      if r.Success? {
        ghost var cleaning := JetCleaning(c, FilterName(c), SmearName(c));
        StageDone(s0, cleaning, ShiftPair(c, r.value.up, r.value.down, jetsEnUp), process.State());
      }
    }

    /**
     * `toolCode`, one of electrons, photons, muons and taus: the configured
     * collection shifted up and down in energy, or nothing when it is off.
     * Fails exactly when a shifted module cannot be named.
     */
    method ShiftChannel(process: Process, c: Config, ch: Channel) returns (r: Result<Option<Shifted>, NameError>)
      requires UncertaintySequence in process.sequences
      modifies process
      ensures r.Success? <==> ChannelNameable(c, ch)
      ensures r.Success? ==> r.value == ChannelShifts(c, ch)
      ensures r.Success? ==> process.State() == Run(old(process.State()), ChannelOps(c, ch))
      ensures r.Success? ==> Runnable(old(process.State()), ChannelOps(c, ch))
      ensures old(process.modules).Keys <= process.modules.Keys
      ensures UncertaintySequence in process.sequences
    {
      var collection := Collection(c, ch);
      if collection.None? {
        return Success(None);
      }
      var enUp := ShiftedParticles(c, ch, collection.value);
      var shifted := AddShiftPair(process, c, collection.value, enUp);
      if shifted.Failure? {
        return Failure(shifted.error);
      }
      r := Success(Some(shifted.value));
    }

    /**
     * The pattern `toolCode` repeats for jets and each particle type: the
     * up-shift module registered under the name `shifted<collection>EnUp`
     * forms, then its clone shifting down under `shifted<collection>EnDown`.
     */
    method AddShiftPair(process: Process, c: Config, collection: string, enUp: Module) returns (r: Result<Shifted, NameError>)
      requires UncertaintySequence in process.sequences
      modifies process
      ensures r.Success? <==> ShiftNameable(collection)
      ensures r.Success? ==> r.value == Shifted(ShiftedName(collection, EnUp), ShiftedName(collection, EnDown))
      ensures r.Success? ==> process.State() == Run(old(process.State()), ShiftPair(c, r.value.up, r.value.down, enUp))
      ensures r.Success? ==> Runnable(old(process.State()), ShiftPair(c, r.value.up, r.value.down, enUp))
      ensures old(process.modules).Keys <= process.modules.Keys
      ensures UncertaintySequence in process.sequences
    {
      ghost var s0 := process.State();
      var up := AddModuleToSequence(process, enUp, ShiftParts(collection, EnUp), UncertaintySequence);
      if up.Failure? {
        return Failure(up.error);
      }
      Done(s0, [], Add(up.value, enUp), process.State());
      var enDown := Clone(enUp, ShiftDown(c));
      var down := AddModuleToSequence(process, enDown, ShiftParts(collection, EnDown), UncertaintySequence);
      if down.Failure? {
        return Failure(down.error);
      }
      Done(s0, [Add(up.value, enUp)], Add(down.value, enDown), process.State());
      assert [Add(up.value, enUp)] + [Add(down.value, enDown)] == ShiftPair(c, up.value, down.value, enUp);
      r := Success(Shifted(up.value, down.value));
    }

    /**
     * `toolCode`, start of the propagation of the shifted jets: the MET
     * corrections configuration loaded, its jet selections and candidate
     * cleaning pointed at the configured collections, and its sequence
     * appended.
     */
    method LoadCorrections(process: Process, c: Config, baseline: map<string, Module>)
      requires BaselineModules <= baseline.Keys
      requires UncertaintySequence in process.sequences
      modifies process
      ensures process.State() == Run(old(process.State()), BaselineOps(c, baseline))
      ensures Runnable(old(process.State()), BaselineOps(c, baseline))
      ensures old(process.modules).Keys + BaselineModules <= process.modules.Keys
      ensures UncertaintySequence in process.sequences
    {
      ghost var s0 := process.State();
      ghost var done: seq<Op> := [];
      process.Load(baseline);
      Done(s0, done, Load(baseline), process.State());
      done := done + [Load(baseline)];
      process.SetParameter(SelectedJetsType1p2, "src", TagParam(Tag(c.jetCollection)));
      Done(s0, done, Edit(SelectedJetsType1p2, "src", TagParam(Tag(c.jetCollection))), process.State());
      done := done + [Edit(SelectedJetsType1p2, "src", TagParam(Tag(c.jetCollection)))];
      process.SetParameter(SelectedJetsType2, "src", TagParam(Tag(c.jetCollection)));
      Done(s0, done, Edit(SelectedJetsType2, "src", TagParam(Tag(c.jetCollection))), process.State());
      done := done + [Edit(SelectedJetsType2, "src", TagParam(Tag(c.jetCollection)))];
      process.SetParameter(PfCandsNotInJet, "bottomCollection", TagParam(Tag(c.pfCandCollection)));
      Done(s0, done, Edit(PfCandsNotInJet, "bottomCollection", TagParam(Tag(c.pfCandCollection))), process.State());
      done := done + [Edit(PfCandsNotInJet, "bottomCollection", TagParam(Tag(c.pfCandCollection)))];
      process.AppendTo(UncertaintySequence, CorrectionsSequence);
      Done(s0, done, Splice(CorrectionsSequence), process.State());
      done := done + [Splice(CorrectionsSequence)];
      assert done == BaselineOps(c, baseline);
    }

    /**
     * `toolCode`, the jet selections of the loaded configuration cloned to
     * read the jets shifted up, then down.
     */
    method CloneJetSelections(process: Process, jetCollectionEnUp: string, jetCollectionEnDown: string)
      requires SelectedJetsType1p2 in process.modules && SelectedJetsType2 in process.modules
      requires UncertaintySequence in process.sequences
      modifies process
      ensures process.State() == Run(old(process.State()), JetSelectionOps(jetCollectionEnUp, jetCollectionEnDown))
      ensures Runnable(old(process.State()), JetSelectionOps(jetCollectionEnUp, jetCollectionEnDown))
      ensures old(process.modules).Keys <= process.modules.Keys
      ensures UncertaintySequence in process.sequences
    {
      ghost var s0 := process.State();
      ghost var done: seq<Op> := [];
      var upOverride := SrcOverride(jetCollectionEnUp);
      var downOverride := SrcOverride(jetCollectionEnDown);
      RegisterClone(process, SelectedJetsType1p2 + EnUp, SelectedJetsType1p2, upOverride);
      ghost var op0 := AddClone(SelectedJetsType1p2 + EnUp, SelectedJetsType1p2, upOverride);
      Done(s0, done, op0, process.State());
      done := done + [op0];
      RegisterClone(process, SelectedJetsType2 + EnUp, SelectedJetsType2, upOverride);
      ghost var op1 := AddClone(SelectedJetsType2 + EnUp, SelectedJetsType2, upOverride);
      Done(s0, done, op1, process.State());
      done := done + [op1];
      RegisterClone(process, SelectedJetsType1p2 + EnDown, SelectedJetsType1p2 + EnUp, downOverride);
      ghost var op2 := AddClone(SelectedJetsType1p2 + EnDown, SelectedJetsType1p2 + EnUp, downOverride);
      Done(s0, done, op2, process.State());
      done := done + [op2];
      RegisterClone(process, SelectedJetsType2 + EnDown, SelectedJetsType2 + EnUp, downOverride);
      ghost var op3 := AddClone(SelectedJetsType2 + EnDown, SelectedJetsType2 + EnUp, downOverride);
      Done(s0, done, op3, process.State());
      done := done + [op3];
      assert done == JetSelectionOps(jetCollectionEnUp, jetCollectionEnDown);
    }

    /** `toolCode`, the type-1+2 corrections re-derived from the shifted jet selections. */
    method CloneJetCorrections(process: Process, c: Config)
      requires JetCorr in process.modules
      requires UncertaintySequence in process.sequences
      modifies process
      ensures process.State() == Run(old(process.State()), ShiftedCorrectionOps(c))
      ensures Runnable(old(process.State()), ShiftedCorrectionOps(c))
      ensures old(process.modules).Keys <= process.modules.Keys
      ensures UncertaintySequence in process.sequences
    {
      ghost var s0 := process.State();
      var upOverride := map["src" := TagParam(Tag(SelectedJetsType1p2 + EnUp)), "jetCorrLabel" := StringParam(c.jetCorrLabel)];
      RegisterClone(process, JetCorr + EnUp, JetCorr, upOverride);
      Done(s0, [], AddClone(JetCorr + EnUp, JetCorr, upOverride), process.State());
      var downOverride := SrcOverride(SelectedJetsType1p2 + EnDown);
      RegisterClone(process, JetCorr + EnDown, JetCorr + EnUp, downOverride);
      Done(s0, [AddClone(JetCorr + EnUp, JetCorr, upOverride)], AddClone(JetCorr + EnDown, JetCorr + EnUp, downOverride), process.State());
    }

    /** `toolCode`, a corrected MET cloned to read the jet corrections shifted up, then down. */
    method ShiftJetMet(process: Process, met: string)
      requires met in process.modules
      requires UncertaintySequence in process.sequences
      modifies process
      ensures process.State() == Run(old(process.State()), JetMetOps(met))
      ensures Runnable(old(process.State()), JetMetOps(met))
      ensures old(process.modules).Keys <= process.modules.Keys
      ensures UncertaintySequence in process.sequences
    {
      ghost var s0 := process.State();
      var upName := met + "JetEnUp";
      var upOverride := MetOverride(met, [InputTag(JetCorr + EnUp, "type1")]);
      RegisterClone(process, upName, met, upOverride);
      Done(s0, [], AddClone(upName, met, upOverride), process.State());
      var downOverride := CorrectionsOverride([InputTag(JetCorr + EnDown, "type1")]);
      RegisterClone(process, met + "JetEnDown", upName, downOverride);
      Done(s0, [AddClone(upName, met, upOverride)], AddClone(met + "JetEnDown", upName, downOverride), process.State());
    }

    /**
     * `toolCode`, the shifted jets propagated to MET: corrections re-derived
     * for them, then both corrected METs cloned to read those.
     */
    method PropagateShiftedJets(process: Process, c: Config, jetCollectionEnUp: string, jetCollectionEnDown: string)
      requires BaselineModules <= process.modules.Keys
      requires UncertaintySequence in process.sequences
      modifies process
      ensures process.State() == Run(old(process.State()), EtaSplitOps(c, jetCollectionEnUp, jetCollectionEnDown))
      ensures Runnable(old(process.State()), EtaSplitOps(c, jetCollectionEnUp, jetCollectionEnDown))
      ensures old(process.modules).Keys <= process.modules.Keys
      ensures UncertaintySequence in process.sequences
    {
      ghost var s0 := process.State();
      CloneJetSelections(process, jetCollectionEnUp, jetCollectionEnDown);
      ghost var done := JetSelectionOps(jetCollectionEnUp, jetCollectionEnDown);
      CloneJetCorrections(process, c);
      StageDone(s0, done, ShiftedCorrectionOps(c), process.State());
      done := done + ShiftedCorrectionOps(c);
      ShiftJetMet(process, Type1Met);
      StageDone(s0, done, JetMetOps(Type1Met), process.State());
      done := done + JetMetOps(Type1Met);
      ShiftJetMet(process, Type1p2Met);
      StageDone(s0, done, JetMetOps(Type1p2Met), process.State());
    }

    /**
     * `toolCode`, the loop over unclustered-energy corrections: each source
     * shifted up and down in turn, the shifted instances collected per
     * direction.
     */
    method ShiftUnclusteredEnergy(process: Process, c: Config, unclEnMETcorrections: seq<CorrSource>)
      returns (unclEnMETcorrectionsUp: seq<InputTag>, unclEnMETcorrectionsDown: seq<InputTag>)
      requires UncertaintySequence in process.sequences
      modifies process
      ensures unclEnMETcorrectionsUp == UnclusteredTags(unclEnMETcorrections, EnUp)
      ensures unclEnMETcorrectionsDown == UnclusteredTags(unclEnMETcorrections, EnDown)
      ensures process.State() == Run(old(process.State()), UnclusteredShiftOps(c, unclEnMETcorrections))
      ensures Runnable(old(process.State()), UnclusteredShiftOps(c, unclEnMETcorrections))
      ensures old(process.modules).Keys <= process.modules.Keys
      ensures UncertaintySequence in process.sequences
    {
      ghost var s0 := process.State();
      unclEnMETcorrectionsUp := [];
      unclEnMETcorrectionsDown := [];
      var i := 0;
      while i < |unclEnMETcorrections|
        invariant 0 <= i <= |unclEnMETcorrections|
        invariant unclEnMETcorrectionsUp == UnclusteredTags(unclEnMETcorrections[..i], EnUp)
        invariant unclEnMETcorrectionsDown == UnclusteredTags(unclEnMETcorrections[..i], EnDown)
        invariant process.State() == Run(s0, UnclusteredShiftOps(c, unclEnMETcorrections[..i]))
        invariant Runnable(s0, UnclusteredShiftOps(c, unclEnMETcorrections[..i]))
        invariant old(process.modules).Keys <= process.modules.Keys
        invariant UncertaintySequence in process.sequences
      {
        var src := unclEnMETcorrections[i];
        ghost var done := UnclusteredShiftOps(c, unclEnMETcorrections[..i]);
        var shiftedUp, shiftedDown := ShiftUnclusteredSource(process, c, src);
        StageDone(s0, done, ShiftPair(c, UnclusteredName(src, EnUp), UnclusteredName(src, EnDown), UnclusteredShift(c, src)),
          process.State());
        unclEnMETcorrectionsUp := unclEnMETcorrectionsUp + shiftedUp;
        unclEnMETcorrectionsDown := unclEnMETcorrectionsDown + shiftedDown;
        UnclusteredPrefixStep(c, unclEnMETcorrections, i);
        i := i + 1;
      }
      assert unclEnMETcorrections[..i] == unclEnMETcorrections;
    }

    /**
     * `toolCode`, one pass of the loop over unclustered-energy corrections:
     * the source shifted up and down, and the instances of each shifted module.
     */
    method ShiftUnclusteredSource(process: Process, c: Config, src: CorrSource)
      returns (shiftedUp: seq<InputTag>, shiftedDown: seq<InputTag>)
      requires UncertaintySequence in process.sequences
      modifies process
      ensures shiftedUp == InstanceTags(UnclusteredName(src, EnUp), src.instances)
      ensures shiftedDown == InstanceTags(UnclusteredName(src, EnDown), src.instances)
      ensures process.State() == Run(old(process.State()),
        ShiftPair(c, UnclusteredName(src, EnUp), UnclusteredName(src, EnDown), UnclusteredShift(c, src)))
      ensures Runnable(old(process.State()),
        ShiftPair(c, UnclusteredName(src, EnUp), UnclusteredName(src, EnDown), UnclusteredShift(c, src)))
      ensures old(process.modules).Keys <= process.modules.Keys
      ensures UncertaintySequence in process.sequences
    {
      ghost var s0 := process.State();
      var moduleUnclEnMETcorrUp := Module(EDProducer, "ShiftedMETcorrInputProducer", map[
        "src" := TagsParam(InstanceTags(src.producer, src.instances)),
        "uncertainty" := DoubleParam(0.10),
        "shiftBy" := DoubleParam(1.0 * c.varyByNsigmas)]);
      var moduleUnclEnMETcorrUpName := UnclusteredName(src, EnUp);
      Register(process, moduleUnclEnMETcorrUpName, moduleUnclEnMETcorrUp);
      Done(s0, [], Add(moduleUnclEnMETcorrUpName, moduleUnclEnMETcorrUp), process.State());
      shiftedUp := InstanceTags(moduleUnclEnMETcorrUpName, src.instances);

      var moduleUnclEnMETcorrDown := Clone(moduleUnclEnMETcorrUp, ShiftDown(c));
      var moduleUnclEnMETcorrDownName := UnclusteredName(src, EnDown);
      Register(process, moduleUnclEnMETcorrDownName, moduleUnclEnMETcorrDown);
      Done(s0, [Add(moduleUnclEnMETcorrUpName, moduleUnclEnMETcorrUp)],
        Add(moduleUnclEnMETcorrDownName, moduleUnclEnMETcorrDown), process.State());
      shiftedDown := InstanceTags(moduleUnclEnMETcorrDownName, src.instances);
    }

    /** `toolCode`, a corrected MET cloned to read the unclustered energy shifted up, then down. */
    method ShiftUnclusteredMet(process: Process, met: string,
        unclEnMETcorrectionsUp: seq<InputTag>, unclEnMETcorrectionsDown: seq<InputTag>)
      requires met in process.modules
      requires UncertaintySequence in process.sequences
      requires unclEnMETcorrectionsUp == UnclusteredTags(UnclusteredSources, EnUp)
      requires unclEnMETcorrectionsDown == UnclusteredTags(UnclusteredSources, EnDown)
      modifies process
      ensures process.State() == Run(old(process.State()), UnclusteredMetOps(met))
      ensures Runnable(old(process.State()), UnclusteredMetOps(met))
      ensures old(process.modules).Keys <= process.modules.Keys
      ensures UncertaintySequence in process.sequences
    {
      ghost var s0 := process.State();
      var upName := met + "UnclusteredEnUp";
      var upOverride := MetOverride(met, unclEnMETcorrectionsUp);
      RegisterClone(process, upName, met, upOverride);
      Done(s0, [], AddClone(upName, met, upOverride), process.State());
      var downOverride := CorrectionsOverride(unclEnMETcorrectionsDown);
      RegisterClone(process, met + "UnclusteredEnDown", upName, downOverride);
      Done(s0, [AddClone(upName, met, upOverride)], AddClone(met + "UnclusteredEnDown", upName, downOverride), process.State());
    }

    /** `toolCode`, unclustered energy: the shifted sources, then both corrected METs cloned to read them. */
    method PropagateUnclusteredEnergy(process: Process, c: Config)
      requires Type1Met in process.modules && Type1p2Met in process.modules
      requires UncertaintySequence in process.sequences
      modifies process
      ensures process.State() == Run(old(process.State()), UnclusteredOps(c))
      ensures Runnable(old(process.State()), UnclusteredOps(c))
      ensures old(process.modules).Keys <= process.modules.Keys
      ensures UncertaintySequence in process.sequences
    {
      ghost var s0 := process.State();
      var ups, downs := ShiftUnclusteredEnergy(process, c, UnclusteredSources);
      ghost var done := UnclusteredShiftOps(c, UnclusteredSources);
      ShiftUnclusteredMet(process, Type1Met, ups, downs);
      StageDone(s0, done, UnclusteredMetOps(Type1Met), process.State());
      done := done + UnclusteredMetOps(Type1Met);
      ShiftUnclusteredMet(process, Type1p2Met, ups, downs);
      StageDone(s0, done, UnclusteredMetOps(Type1p2Met), process.State());
    }

    /** `toolCode`, one channel in a pass of the loop over corrected METs: propagated when the channel is on. */
    method PropagateChannel(process: Process, c: Config, ch: Channel, shifted: Option<Shifted>,
        correctedMET: Module, metLabel: string)
      requires ChannelNameable(c, ch) && shifted == ChannelShifts(c, ch)
      requires metLabel in CorrectedMets && metLabel in process.modules && process.modules[metLabel] == correctedMET
      requires UncertaintySequence in process.sequences
      modifies process
      ensures process.State() == Run(old(process.State()), ChannelPropagation(c, ch, metLabel))
      ensures Runnable(old(process.State()), ChannelPropagation(c, ch, metLabel))
      ensures old(process.modules).Keys <= process.modules.Keys
      ensures UncertaintySequence in process.sequences
      ensures forall met :: met in CorrectedMets && met in old(process.modules) ==>
        met in process.modules && process.modules[met] == old(process.modules[met])
    {
      var collection := Collection(c, ch);
      if collection.Some? {
        PropagateMEtUncertainties(process, collection.value, ParticleType(ch),
          shifted.value.up, shifted.value.down, correctedMET, metLabel);
      }
    }

    /**
     * `toolCode`, one pass of the loop over corrected METs: the shifted
     * electrons, photons, muons and taus propagated to the MET registered as
     * `metLabel`, for each channel that is on.
     */
    method PropagateToMet(process: Process, c: Config,
        electron: Option<Shifted>, photon: Option<Shifted>, muon: Option<Shifted>, tau: Option<Shifted>,
        correctedMET: Module, metLabel: string)
      requires NamesValid(c)
      requires electron == ChannelShifts(c, Electron) && photon == ChannelShifts(c, Photon)
      requires muon == ChannelShifts(c, Muon) && tau == ChannelShifts(c, Tau)
      requires metLabel in CorrectedMets && metLabel in process.modules && process.modules[metLabel] == correctedMET
      requires UncertaintySequence in process.sequences
      modifies process
      ensures process.State() == Run(old(process.State()), MetPropagation(c, metLabel))
      ensures Runnable(old(process.State()), MetPropagation(c, metLabel))
      ensures old(process.modules).Keys <= process.modules.Keys
      ensures UncertaintySequence in process.sequences
      ensures forall met :: met in CorrectedMets && met in old(process.modules) ==>
        met in process.modules && process.modules[met] == old(process.modules[met])
    {
      ghost var s0 := process.State();
      PropagateChannel(process, c, Electron, electron, correctedMET, metLabel);
      ghost var done := ChannelPropagation(c, Electron, metLabel);
      PropagateChannel(process, c, Photon, photon, correctedMET, metLabel);
      StageDone(s0, done, ChannelPropagation(c, Photon, metLabel), process.State());
      done := done + ChannelPropagation(c, Photon, metLabel);
      PropagateChannel(process, c, Muon, muon, correctedMET, metLabel);
      StageDone(s0, done, ChannelPropagation(c, Muon, metLabel), process.State());
      done := done + ChannelPropagation(c, Muon, metLabel);
      PropagateChannel(process, c, Tau, tau, correctedMET, metLabel);
      StageDone(s0, done, ChannelPropagation(c, Tau, metLabel), process.State());
    }

    /**
     * `toolCode`, the collections shifted: jets, then electrons, photons,
     * muons and taus. Fails exactly when a module name cannot be formed.
     */
    method ShiftCollections(process: Process, c: Config) returns (r: Result<ShiftedCollections, NameError>)
      requires UncertaintySequence in process.sequences
      modifies process
      ensures r.Success? <==> NamesValid(c)
      ensures r.Success? ==> r.value == AllShifts(c)
      ensures r.Success? ==> process.State() == Run(old(process.State()), ShiftOps(c))
      ensures r.Success? ==> Runnable(old(process.State()), ShiftOps(c))
      ensures old(process.modules).Keys <= process.modules.Keys
      ensures UncertaintySequence in process.sequences
    {
      ghost var s0 := process.State();
      var jets := ShiftJets(process, c);
      if jets.Failure? {
        return Failure(jets.error);
      }
      ghost var done := JetOps(c);
      var electron := ShiftChannel(process, c, Electron);
      if electron.Failure? {
        return Failure(electron.error);
      }
      StageDone(s0, done, ChannelOps(c, Electron), process.State());
      done := done + ChannelOps(c, Electron);
      var photon := ShiftChannel(process, c, Photon);
      if photon.Failure? {
        return Failure(photon.error);
      }
      StageDone(s0, done, ChannelOps(c, Photon), process.State());
      done := done + ChannelOps(c, Photon);
      var muon := ShiftChannel(process, c, Muon);
      if muon.Failure? {
        return Failure(muon.error);
      }
      StageDone(s0, done, ChannelOps(c, Muon), process.State());
      done := done + ChannelOps(c, Muon);
      var tau := ShiftChannel(process, c, Tau);
      if tau.Failure? {
        return Failure(tau.error);
      }
      StageDone(s0, done, ChannelOps(c, Tau), process.State());
      r := Success(ShiftedCollections(jets.value, electron.value, photon.value, muon.value, tau.value));
    }

    /**
     * `toolCode`, the loop over the type-1 and type-1+2 corrected METs: the
     * shifted particles propagated to each in turn. The list of METs is
     * read once, before the loop.
     */
    method PropagateParticles(process: Process, c: Config, shifted: ShiftedCollections)
      requires NamesValid(c) && shifted == AllShifts(c)
      requires Type1Met in process.modules && Type1p2Met in process.modules
      requires UncertaintySequence in process.sequences
      modifies process
      ensures process.State() == Run(old(process.State()), CrossProductOps(c, CorrectedMets))
      ensures Runnable(old(process.State()), CrossProductOps(c, CorrectedMets))
      ensures UncertaintySequence in process.sequences
    {
      var corrMETs := [process.modules[Type1Met], process.modules[Type1p2Met]];
      forall k | 0 <= k < |CorrectedMets|
        ensures CorrectedMets[k] in process.modules && process.modules[CorrectedMets[k]] == corrMETs[k]
      {
        if k == 0 {
          assert CorrectedMets[k] == Type1Met;
        } else {
          assert CorrectedMets[k] == Type1p2Met;
        }
      }
      PropagateToEachMet(process, c, shifted, CorrectedMets, corrMETs);
    }

    /**
     * The loop itself: the MET registered as `metLabels[k]`, whose module was
     * `corrMETs[k]` when the list was read, gets the shifted particles, for
     * `k` in order.
     */
    method PropagateToEachMet(process: Process, c: Config, shifted: ShiftedCollections,
        metLabels: seq<string>, corrMETs: seq<Module>)
      requires NamesValid(c) && shifted == AllShifts(c)
      requires |metLabels| == |corrMETs|
      requires forall k :: 0 <= k < |metLabels| ==>
        metLabels[k] in CorrectedMets && metLabels[k] in process.modules && process.modules[metLabels[k]] == corrMETs[k]
      requires UncertaintySequence in process.sequences
      modifies process
      ensures process.State() == Run(old(process.State()), CrossProductOps(c, metLabels))
      ensures Runnable(old(process.State()), CrossProductOps(c, metLabels))
      ensures UncertaintySequence in process.sequences
    {
      ghost var s0 := process.State();
      var k := 0;
      while k < |corrMETs|
        invariant 0 <= k <= |corrMETs|
        invariant process.State() == Run(s0, CrossProductOps(c, metLabels[..k]))
        invariant Runnable(s0, CrossProductOps(c, metLabels[..k]))
        invariant forall i :: 0 <= i < |metLabels| ==>
          metLabels[i] in process.modules && process.modules[metLabels[i]] == corrMETs[i]
        invariant UncertaintySequence in process.sequences
      {
        var correctedMET := corrMETs[k];
        var metLabel := metLabels[k];
        ghost var done := CrossProductOps(c, metLabels[..k]);
        PropagateToMet(process, c, shifted.electron, shifted.photon, shifted.muon, shifted.tau, correctedMET, metLabel);
        StageDone(s0, done, MetPropagation(c, metLabel), process.State());
        CrossProductPrefixStep(c, metLabels, k);
        k := k + 1;
      }
      assert metLabels[..k] == metLabels;
    }

    /**
     * `toolCode`, the shifts propagated to MET: the MET corrections loaded
     * and pointed at the configured collections, then the shifted jets,
     * the shifted unclustered energy and the shifted particles propagated.
     */
    method PropagateShifts(process: Process, c: Config, shifted: ShiftedCollections, baseline: map<string, Module>)
      requires NamesValid(c) && shifted == AllShifts(c)
      requires BaselineModules <= baseline.Keys
      requires UncertaintySequence in process.sequences
      modifies process
      ensures process.State() == Run(old(process.State()), PropagationOps(c, baseline))
      ensures Runnable(old(process.State()), PropagationOps(c, baseline))
    {
      ghost var s0 := process.State();
      LoadCorrections(process, c, baseline);
      ghost var done := BaselineOps(c, baseline);
      PropagateShiftedJets(process, c, shifted.jets.up, shifted.jets.down);
      StageDone(s0, done, EtaSplitOps(c, shifted.jets.up, shifted.jets.down), process.State());
      done := done + EtaSplitOps(c, shifted.jets.up, shifted.jets.down);
      PropagateUnclusteredEnergy(process, c);
      StageDone(s0, done, UnclusteredOps(c), process.State());
      done := done + UnclusteredOps(c);
      PropagateParticles(process, c, shifted);
      StageDone(s0, done, CrossProductOps(c, CorrectedMets), process.State());
    }

    /**
     * `toolCode`: the whole uncertainty sequence built from the parameters
     * and appended to `patDefaultSequence`. When every module name can be
     * formed, every operation of the plan finds what it reads and the
     * process ends as `ToolCodeState` says; otherwise the naming error is
     * reported. A process without `patDefaultSequence` gets the error
     * `NoDefaultSequence` after the modules are added.
     */
    method ToolCode(process: Process, baseline: map<string, Module>) returns (error: Option<ToolError>)
      requires BaselineModules <= baseline.Keys
      modifies process
      ensures (error.Some? && error.value.NameFailure?) <==> !NamesValid(parameters)
      ensures error.None? <==> NamesValid(parameters) && DefaultSequence in old(process.sequences)
      ensures NamesValid(parameters) ==>
        Runnable(WithNewSequence(old(process.State())), Plan(parameters, baseline))
      ensures NamesValid(parameters) ==>
        process.State() == ToolCodeState(old(process.State()), parameters, baseline)
    {
      var c := parameters;
      process.NewSequence(UncertaintySequence);
      assert process.State() == WithNewSequence(old(process.State()));
      var failure := BuildSequence(process, c, baseline);
      assert c == parameters;
      if failure.Some? {
        return Some(NameFailure(failure.value));
      }
      error := AppendToDefaultSequence(process, old(process.State()), Plan(c, baseline));
    }

    /**
     * `toolCode`, the modules: the collections shifted and the shifts
     * propagated to MET, in the order of the plan, or the first naming
     * error.
     */
    method BuildSequence(process: Process, c: Config, baseline: map<string, Module>) returns (failure: Option<NameError>)
      requires BaselineModules <= baseline.Keys
      requires UncertaintySequence in process.sequences
      modifies process
      ensures failure.None? <==> NamesValid(c)
      ensures NamesValid(c) ==> Runnable(old(process.State()), Plan(c, baseline))
      ensures NamesValid(c) ==> process.State() == Run(old(process.State()), Plan(c, baseline))
    {
      ghost var s0 := process.State();
      var shifted := ShiftCollections(process, c);
      if shifted.Failure? {
        return Some(shifted.error);
      }
      PropagateShifts(process, c, shifted.value, baseline);
      StageDone(s0, ShiftOps(c), PropagationOps(c, baseline), process.State());
      failure := None;
    }

    /**
     * `toolCode`, last step: `metUncertaintySequence` appended to
     * `patDefaultSequence`, or the error when the process has no such
     * sequence. No module changes.
     */
    method AppendToDefaultSequence(process: Process, ghost s: ProcessState, ghost ops: seq<Op>)
      returns (error: Option<ToolError>)
      requires Runnable(WithNewSequence(s), ops) && process.State() == Run(WithNewSequence(s), ops)
      modifies process
      ensures error.None? <==> DefaultSequence in s.sequences
      ensures error.Some? ==> error.value == NoDefaultSequence
      ensures process.State() == AppendToDefault(old(process.State()))
    {
      RunOnNewSequence(s, ops);
      assert DefaultSequence != UncertaintySequence by {
        assert |DefaultSequence| != |UncertaintySequence|;
      }
      if DefaultSequence !in process.sequences {
        return Some(NoDefaultSequence);
      }
      process.AppendTo(DefaultSequence, UncertaintySequence);
      error := None;
    }

    /**
     * `__call__`: each argument left `None` replaced by its default, the
     * parameters stored, and `toolCode` applied to the process.
     */
    method Call(process: Process, args: Arguments, baseline: map<string, Module>) returns (error: Option<ToolError>)
      requires BaselineModules <= baseline.Keys
      modifies this, process
      ensures parameters == Resolve(args, old(parameters.doCorrType1p2MEt))
      ensures (error.Some? && error.value.NameFailure?) <==> !NamesValid(parameters)
      ensures error.None? <==> NamesValid(parameters) && DefaultSequence in old(process.sequences)
      ensures NamesValid(parameters) ==>
        Runnable(WithNewSequence(old(process.State())), Plan(parameters, baseline))
      ensures NamesValid(parameters) ==>
        process.State() == ToolCodeState(old(process.State()), parameters, baseline)
    {
      parameters := Resolve(args, parameters.doCorrType1p2MEt);
      error := ToolCode(process, baseline);
    }
  }
}
