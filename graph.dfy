/**
 * The module graph `RunMEtUncertainties.toolCode` assembles, as a list of
 * operations on a process: registering a module under a name (`setattr`),
 * appending a name to `metUncertaintySequence` (`+=`), cloning a module
 * already in the process with some parameters replaced (`process.X.clone`),
 * editing one parameter of a module in place, loading the baseline
 * configuration and splicing its sequence in.
 */
module Graph {
  import opened Wrappers
  import opened Naming
  import opened Parameters

  // ---------------------------------------------------------------------------
  // Modules
  // ---------------------------------------------------------------------------

  /** `cms.InputTag(moduleLabel, instance)`. */
  datatype InputTag = InputTag(moduleLabel: string, instance: string)

  /** `cms.InputTag(moduleLabel)`, with no instance label. */
  function Tag(moduleLabel: string): InputTag
  {
    InputTag(moduleLabel, "")
  }

  /** The tags of a list of collection labels. */
  function Tags(labels: seq<string>): (r: seq<InputTag>)
    ensures |r| == |labels|
    ensures forall i :: 0 <= i < |r| ==> r[i] == Tag(labels[i])
  {
    seq(|labels|, i requires 0 <= i < |labels| => Tag(labels[i]))
  }

  /** `cms.PSet(binSelection = ..., binUncertainty = ...)`. */
  datatype Bin = Bin(selection: string, uncertainty: real)

  /** The parameter values the tool writes; `cms.double` is modelled as `real`. */
  datatype Param =
    | TagParam(tag: InputTag)           // cms.InputTag
    | TagsParam(tags: seq<InputTag>)    // cms.VInputTag
    | DoubleParam(value: real)          // cms.double
    | StringParam(text: string)         // cms.string
    | BoolParam(flag: bool)             // cms.bool
    | FileParam(path: string)           // cms.FileInPath
    | BinsParam(bins: seq<Bin>)         // cms.VPSet of bins

  datatype ModuleType = EDProducer | EDFilter

  /** A configured module: its type, its plugin name and its parameters. */
  datatype Module = Module(kind: ModuleType, plugin: string, params: map<string, Param>)

  /** `m.clone(**overrides)`: the same module with the given parameters replaced or added. */
  function Clone(m: Module, overrides: map<string, Param>): (r: Module)
    ensures r.kind == m.kind && r.plugin == m.plugin
    ensures r.params.Keys == m.params.Keys + overrides.Keys
    ensures forall k :: k in overrides ==> r.params[k] == overrides[k]
    ensures forall k :: k in m.params && k !in overrides ==> r.params[k] == m.params[k]
  {
    m.(params := m.params + overrides)
  }

  /**
   * A clone of a clone is one clone with both sets of overrides, the later
   * ones winning: cloning never loses a parameter it does not override.
   */
  lemma CloneTwice(m: Module, a: map<string, Param>, b: map<string, Param>)
    ensures Clone(Clone(m, a), b) == Clone(m, a + b)
  {
    assert (m.params + a) + b == m.params + (a + b);
  }

  // ---------------------------------------------------------------------------
  // The process and the operations on it
  // ---------------------------------------------------------------------------

  const UncertaintySequence := "metUncertaintySequence"
  const DefaultSequence := "patDefaultSequence"

  /** The attributes of a `cms.Process`: its modules and its sequences (as lists of labels). */
  datatype ProcessState = ProcessState(modules: map<string, Module>, sequences: map<string, seq<string>>)

  datatype Op =
    | Add(name: string, added: Module)                                 // setattr, then `+=`
    | AddClone(name: string, source: string, overrides: map<string, Param>)  // process.name = process.source.clone(...), then `+=`
    | Edit(target: string, key: string, value: Param)                  // process.target.key = value
    | Load(loaded: map<string, Module>)                                 // process.load(...)
    | Splice(sequence: string)                                          // `+=` of a loaded sequence

  /** `process.metUncertaintySequence = cms.Sequence()`: a new, empty sequence. */
  function WithNewSequence(s: ProcessState): ProcessState
  {
    s.(sequences := s.sequences[UncertaintySequence := []])
  }

  /** `metUncertaintySequence += name`. */
  function AppendLabel(s: ProcessState, name: string): ProcessState
  {
    var current := if UncertaintySequence in s.sequences then s.sequences[UncertaintySequence] else [];
    s.(sequences := s.sequences[UncertaintySequence := current + [name]])
  }

  /**
   * One operation. A clone or edit of a module the process lacks raises an
   * `AttributeError` in the source; here it changes nothing, and `Runnable`
   * says that it does not happen.
   */
  function Apply(s: ProcessState, op: Op): ProcessState
  {
    match op
    case Add(name, m) => AppendLabel(s.(modules := s.modules[name := m]), name)
    case AddClone(name, source, overrides) =>
      if source in s.modules then
        AppendLabel(s.(modules := s.modules[name := Clone(s.modules[source], overrides)]), name)
      else s
    case Edit(target, key, value) =>
      if target in s.modules then
        s.(modules := s.modules[target := Clone(s.modules[target], map[key := value])])
      else s
    case Load(loaded) => s.(modules := s.modules + loaded)
    case Splice(name) => AppendLabel(s, name)
  }

  /** The operations in order. */
  function Run(s: ProcessState, ops: seq<Op>): ProcessState
    decreases |ops|
  {
    if ops == [] then s else Apply(Run(s, ops[..|ops| - 1]), ops[|ops| - 1])
  }

  /** Every clone reads, and every edit writes, a module that is there at that point. */
  predicate Ready(s: ProcessState, op: Op)
  {
    match op
    case AddClone(_, source, _) => source in s.modules
    case Edit(target, _, _) => target in s.modules
    case _ => true
  }

  predicate Runnable(s: ProcessState, ops: seq<Op>)
    decreases |ops|
  {
    ops == [] || (Runnable(s, ops[..|ops| - 1]) && Ready(Run(s, ops[..|ops| - 1]), ops[|ops| - 1]))
  }

  /** The name an operation appends to `metUncertaintySequence`, if any. */
  function Appends(op: Op): seq<string>
  {
    match op
    case Add(name, _) => [name]
    case AddClone(name, _, _) => [name]
    case Splice(name) => [name]
    case _ => []
  }

  /** The labels a list of operations appends, in order. */
  function Sequenced(ops: seq<Op>): seq<string>
    decreases |ops|
  {
    if ops == [] then [] else Sequenced(ops[..|ops| - 1]) + Appends(ops[|ops| - 1])
  }

  lemma RunSnoc(s: ProcessState, ops: seq<Op>, op: Op)
    ensures Run(s, ops + [op]) == Apply(Run(s, ops), op)
    ensures Runnable(s, ops + [op]) <==> Runnable(s, ops) && Ready(Run(s, ops), op)
    ensures Sequenced(ops + [op]) == Sequenced(ops) + Appends(op)
  {
    assert (ops + [op])[..|ops|] == ops;
  }

  /** Two operations in a row. */
  lemma RunPair(s: ProcessState, a: Op, b: Op)
    ensures Run(s, [a, b]) == Apply(Apply(s, a), b)
    ensures Runnable(s, [a, b]) <==> Ready(s, a) && Ready(Apply(s, a), b)
  {
    RunSnoc(s, [], a);
    RunSnoc(s, [a], b);
    assert [] + [a] == [a] && [a] + [b] == [a, b];
  }

  lemma SequencedSingle(op: Op)
    ensures Sequenced([op]) == Appends(op)
  {
    assert [op][..0] == [];
  }

  /** The labels appended by two lists of operations, one after the other. */
  lemma {:induction false} SequencedConcat(a: seq<Op>, b: seq<Op>)
    ensures Sequenced(a + b) == Sequenced(a) + Sequenced(b)
    decreases |b|
  {
    if b == [] {
      assert a + b == a;
    } else {
      var b' := b[..|b| - 1];
      assert (a + b)[..|a + b| - 1] == a + b';
      SequencedConcat(a, b');
    }
  }

  /** Running two lists of operations is running their concatenation. */
  lemma {:induction false} RunConcat(s: ProcessState, a: seq<Op>, b: seq<Op>)
    ensures Run(s, a + b) == Run(Run(s, a), b)
    ensures Runnable(s, a + b) <==> Runnable(s, a) && Runnable(Run(s, a), b)
    ensures Sequenced(a + b) == Sequenced(a) + Sequenced(b)
    decreases |b|
  {
    if b == [] {
      assert a + b == a;
    } else {
      var b' := b[..|b| - 1];
      var op := b[|b| - 1];
      assert a + b == (a + b') + [op];
      assert b == b' + [op];
      RunConcat(s, a, b');
      RunSnoc(s, a + b', op);
      RunSnoc(Run(s, a), b', op);
    }
  }

  /**
   * A runnable list of operations leaves `metUncertaintySequence` extended
   * by exactly the labels it appends, in order, and every other sequence as
   * it was.
   */
  lemma {:induction false} RunAppends(s: ProcessState, ops: seq<Op>)
    requires UncertaintySequence in s.sequences && Runnable(s, ops)
    ensures UncertaintySequence in Run(s, ops).sequences
    ensures Run(s, ops).sequences[UncertaintySequence] == s.sequences[UncertaintySequence] + Sequenced(ops)
    ensures forall q :: q in s.sequences && q != UncertaintySequence ==> q in Run(s, ops).sequences && Run(s, ops).sequences[q] == s.sequences[q]
    ensures Run(s, ops).sequences.Keys == s.sequences.Keys
    decreases |ops|
  {
    if ops != [] {
      var init := ops[..|ops| - 1];
      RunAppends(s, init);
    }
  }

  /**
   * A runnable list of operations started on a fresh `metUncertaintySequence`
   * leaves in it exactly the labels the list appends, and every other
   * sequence as it was.
   */
  lemma RunOnNewSequence(s: ProcessState, ops: seq<Op>)
    requires Runnable(WithNewSequence(s), ops)
    ensures Run(WithNewSequence(s), ops).sequences.Keys == s.sequences.Keys + {UncertaintySequence}
    ensures Run(WithNewSequence(s), ops).sequences[UncertaintySequence] == Sequenced(ops)
    ensures forall q :: q in s.sequences && q != UncertaintySequence ==>
      q in Run(WithNewSequence(s), ops).sequences && Run(WithNewSequence(s), ops).sequences[q] == s.sequences[q]
  {
    RunAppends(WithNewSequence(s), ops);
  }

  /** Each module appended by a runnable list is registered under its name afterwards, or overwritten by a later one. */
  lemma {:induction false} RunRegisters(s: ProcessState, ops: seq<Op>)
    ensures s.modules.Keys <= Run(s, ops).modules.Keys
    ensures Runnable(s, ops) ==> forall x :: x in Sequenced(ops) ==> x in Run(s, ops).modules || x in Spliced(ops)
    decreases |ops|
  {
    if ops != [] {
      var init := ops[..|ops| - 1];
      RunRegisters(s, init);
    }
  }

  /** The labels of spliced sequences. */
  function Spliced(ops: seq<Op>): set<string>
    decreases |ops|
  {
    if ops == [] then {} else Spliced(ops[..|ops| - 1]) + (if ops[|ops| - 1].Splice? then {ops[|ops| - 1].sequence} else {})
  }

  // ---------------------------------------------------------------------------
  // Names
  // ---------------------------------------------------------------------------

  const AntiOverlapSuffix := "AntiOverlapWithLeptonsForMEtUncertainty"
  const EnUp := "EnUp"
  const EnDown := "EnDown"

  /** The fragments of the anti-overlap filter's name. */
  function FilterParts(c: Config): seq<Option<string>>
  {
    [Some(c.jetCollection), Some(AntiOverlapSuffix)]
  }

  /** The fragments of the smeared jets' name. */
  function SmearParts(c: Config): seq<Option<string>>
  {
    [Some("smeared"), Some(c.jetCollection)]
  }

  /** The fragments of the name of a collection shifted in direction `dir`. */
  function ShiftParts(name: string, dir: string): seq<Option<string>>
  {
    [Some("shifted"), Some(name), Some(dir)]
  }

  predicate Nameable(parts: seq<Option<string>>)
  {
    ModuleName(parts).Success?
  }

  function ShiftedName(name: string, dir: string): string
    requires Nameable(ShiftParts(name, dir))
  {
    ModuleName(ShiftParts(name, dir)).value
  }

  predicate ShiftNameable(name: string)
  {
    Nameable(ShiftParts(name, EnUp)) && Nameable(ShiftParts(name, EnDown))
  }

  predicate ChannelNameable(c: Config, ch: Channel)
  {
    Collection(c, ch).Some? ==> ShiftNameable(Collection(c, ch).value)
  }

  /** The jet modules' names can be formed: the filter, the smeared jets when smearing is on, the shift pair. */
  predicate JetNamesValid(c: Config)
  {
    && Nameable(FilterParts(c))
    && (c.doSmearJets ==> Nameable(SmearParts(c)))
    && ShiftNameable(c.jetCollection)
  }

  /** Every name `toolCode` asks `_addModuleToSequence` for can be formed. */
  predicate NamesValid(c: Config)
  {
    && JetNamesValid(c)
    && ChannelNameable(c, Electron) && ChannelNameable(c, Photon)
    && ChannelNameable(c, Muon) && ChannelNameable(c, Tau)
  }

  function FilterName(c: Config): string
    requires JetNamesValid(c)
  {
    ModuleName(FilterParts(c)).value
  }

  /** The last jet collection before shifting: the smeared jets, or the anti-overlap filter. */
  function LastJetName(c: Config): string
    requires JetNamesValid(c)
  {
    if c.doSmearJets then ModuleName(SmearParts(c)).value else FilterName(c)
  }

  // ---------------------------------------------------------------------------
  // The modules the tool creates
  // ---------------------------------------------------------------------------

  /** The non-`None` collections, in order. */
  function Present(opts: seq<Option<string>>): (r: seq<string>)
    ensures |r| <= |opts|
    decreases |opts|
  {
    if opts == [] then []
    else
      var last := opts[|opts| - 1];
      Present(opts[..|opts| - 1]) + (if last.Some? then [last.value] else [])
  }

  lemma PresentSnoc(opts: seq<Option<string>>, x: Option<string>)
    ensures Present(opts + [x]) == Present(opts) + (if x.Some? then [x.value] else [])
  {
    assert (opts + [x])[..|opts|] == opts;
  }

  function AntiOverlapFilter(c: Config): Module
  {
    Module(EDFilter, "PATJetAntiOverlapSelector", map[
      "src" := TagParam(Tag(c.jetCollection)),
      "srcNotToBeFiltered" := TagsParam(Tags(Present(Collections(c)))),
      "dRmin" := DoubleParam(c.dRjetCleaning),
      "filter" := BoolParam(false)])
  }

  function SmearedJets(c: Config, src: string): Module
  {
    Module(EDProducer, "SmearedPATJetProducer", map[
      "src" := TagParam(Tag(src)),
      "inputFileName" := FileParam(c.jetSmearFileName),
      "lutName" := StringParam(c.jetSmearHistogram)])
  }

  function ShiftedJets(c: Config, src: string): Module
  {
    Module(EDProducer, "ShiftedPATJetProducer", map[
      "src" := TagParam(Tag(src)),
      "jetCorrPayloadName" := StringParam(c.jetCorrPayloadName),
      "jetCorrUncertaintyTag" := StringParam("Uncertainty"),
      "shiftBy" := DoubleParam(1.0 * c.varyByNsigmas)])
  }

  /** The up-shift producer of a channel's collection. */
  function ShiftedParticles(c: Config, ch: Channel, collection: string): Module
  {
    var shiftBy := DoubleParam(1.0 * c.varyByNsigmas);
    match ch
    case Electron =>
      Module(EDProducer, "ShiftedPATElectronProducer", map[
        "src" := TagParam(Tag(collection)),
        "binning" := BinsParam([Bin("isEB", 0.01), Bin("!isEB", 0.025)]),
        "shiftBy" := shiftBy])
    case Photon =>
      Module(EDProducer, "ShiftedPATPhotonProducer", map[
        "src" := TagParam(Tag(collection)),
        "binning" := BinsParam([Bin("isEB = true", 0.01), Bin("isEB = false", 0.025)]),
        "shiftBy" := shiftBy])
    case Muon =>
      Module(EDProducer, "ShiftedPATMuonProducer", map[
        "src" := TagParam(Tag(collection)),
        "uncertainty" := DoubleParam(0.01),
        "shiftBy" := shiftBy])
    case Tau =>
      Module(EDProducer, "ShiftedPATTauProducer", map[
        "src" := TagParam(Tag(collection)),
        "uncertainty" := DoubleParam(0.03),
        "shiftBy" := shiftBy])
  }

  /** The override that turns an up-shift module into its down-shift clone. */
  function ShiftDown(c: Config): map<string, Param>
  {
    map["shiftBy" := DoubleParam(-1.0 * c.varyByNsigmas)]
  }

  /** An up-shift module and its down-shift clone, appended in that order. */
  function ShiftPair(c: Config, upName: string, downName: string, up: Module): seq<Op>
  {
    [Add(upName, up), Add(downName, Clone(up, ShiftDown(c)))]
  }

  function SrcOverride(name: string): map<string, Param>
  {
    map["src" := TagParam(Tag(name))]
  }

  function CorrectionsOverride(tags: seq<InputTag>): map<string, Param>
  {
    map["srcType1Corrections" := TagsParam(tags)]
  }

  /** The overrides of a corrected MET clone: read the baseline MET and the given corrections. */
  function MetOverride(met: string, tags: seq<InputTag>): map<string, Param>
  {
    map["src" := TagParam(Tag(met)), "srcType1Corrections" := TagsParam(tags)]
  }

  function ParticleCorrInput(original: string, shifted: string): Module
  {
    Module(EDProducer, "ShiftedParticleMETcorrInputProducer", map[
      "srcOriginal" := TagParam(Tag(original)),
      "srcShifted" := TagParam(Tag(shifted))])
  }

  // ---------------------------------------------------------------------------
  // The stages of `toolCode`
  // ---------------------------------------------------------------------------

  /** The anti-overlap filter and, when smearing is on, the smeared jets reading it, under the given names. */
  function JetCleaning(c: Config, filterName: string, smearName: string): seq<Op>
  {
    [Add(filterName, AntiOverlapFilter(c))]
    + (if c.doSmearJets then [Add(smearName, SmearedJets(c, filterName))] else [])
  }

  /**
   * The anti-overlap filter, the optional smearing, and the jet shift pair,
   * under the given names; each jet module reads the one appended before it.
   */
  function JetChain(c: Config, filterName: string, smearName: string, upName: string, downName: string): seq<Op>
  {
    var last := if c.doSmearJets then smearName else filterName;
    JetCleaning(c, filterName, smearName) + ShiftPair(c, upName, downName, ShiftedJets(c, last))
  }

  /** The name of the smeared jets, when smearing is on. */
  function SmearName(c: Config): string
    requires JetNamesValid(c)
  {
    if c.doSmearJets then ModuleName(SmearParts(c)).value else ""
  }

  /** The jet modules of `toolCode`, under the names `_addModuleToSequence` gives them. */
  function JetOps(c: Config): seq<Op>
    requires JetNamesValid(c)
  {
    JetChain(c, FilterName(c), SmearName(c), ShiftedName(c.jetCollection, EnUp), ShiftedName(c.jetCollection, EnDown))
  }

  /** A channel's shift pair, or nothing when the channel is off. */
  function ChannelOps(c: Config, ch: Channel): seq<Op>
    requires ChannelNameable(c, ch)
  {
    match Collection(c, ch)
    case None => []
    case Some(collection) =>
      ShiftPair(c, ShiftedName(collection, EnUp), ShiftedName(collection, EnDown), ShiftedParticles(c, ch, collection))
  }

  const Type1Met := "patType1CorrectedPFMet"
  const Type1p2Met := "patType1p2CorrectedPFMet"
  const JetCorr := "patPFJetMETtype1p2Corr"
  const SelectedJetsType1p2 := "selectedPatJetsForMETtype1p2Corr"
  const SelectedJetsType2 := "selectedPatJetsForMETtype2Corr"
  const PfCandsNotInJet := "pfCandsNotInJet"
  const CorrectionsSequence := "producePatPFMETCorrections"

  /** The modules of the baseline configuration the tool reads or edits. */
  const BaselineModules: set<string> :=
    {Type1Met, Type1p2Met, JetCorr, SelectedJetsType1p2, SelectedJetsType2, PfCandsNotInJet}

  /** Loading the baseline, pointing it at the configured jets and candidates, and splicing its sequence in. */
  function BaselineOps(c: Config, baseline: map<string, Module>): seq<Op>
  {
    [ Load(baseline),
      Edit(SelectedJetsType1p2, "src", TagParam(Tag(c.jetCollection))),
      Edit(SelectedJetsType2, "src", TagParam(Tag(c.jetCollection))),
      Edit(PfCandsNotInJet, "bottomCollection", TagParam(Tag(c.pfCandCollection))),
      Splice(CorrectionsSequence) ]
  }

  /** A corrected MET shifted by the jet energy scale, up then down. */
  function JetMetOps(met: string): seq<Op>
  {
    [ AddClone(met + "JetEnUp", met, MetOverride(met, [InputTag(JetCorr + EnUp, "type1")])),
      AddClone(met + "JetEnDown", met + "JetEnUp", CorrectionsOverride([InputTag(JetCorr + EnDown, "type1")])) ]
  }

  /** The jet selections of the corrections cloned to read the jets shifted up (`up`) and down (`down`). */
  function JetSelectionOps(up: string, down: string): seq<Op>
  {
    [ AddClone(SelectedJetsType1p2 + EnUp, SelectedJetsType1p2, SrcOverride(up)),
      AddClone(SelectedJetsType2 + EnUp, SelectedJetsType2, SrcOverride(up)),
      AddClone(SelectedJetsType1p2 + EnDown, SelectedJetsType1p2 + EnUp, SrcOverride(down)),
      AddClone(SelectedJetsType2 + EnDown, SelectedJetsType2 + EnUp, SrcOverride(down)) ]
  }

  /** The type-1+2 corrections re-derived from the shifted jet selections. */
  function ShiftedCorrectionOps(c: Config): seq<Op>
  {
    [ AddClone(JetCorr + EnUp, JetCorr,
        map["src" := TagParam(Tag(SelectedJetsType1p2 + EnUp)), "jetCorrLabel" := StringParam(c.jetCorrLabel)]),
      AddClone(JetCorr + EnDown, JetCorr + EnUp, SrcOverride(SelectedJetsType1p2 + EnDown)) ]
  }

  /** The shifted jets propagated to the corrections and to both corrected METs. */
  function EtaSplitOps(c: Config, up: string, down: string): seq<Op>
  {
    JetSelectionOps(up, down) + ShiftedCorrectionOps(c) + JetMetOps(Type1Met) + JetMetOps(Type1p2Met)
  }

  /** A source of unclustered-energy corrections: a module name and its instance labels. */
  datatype CorrSource = CorrSource(producer: string, instances: seq<string>)

  const UnclusteredSources: seq<CorrSource> := [
    CorrSource("pfCandMETcorr", [""]),
    CorrSource("patPFJetMETtype1p2Corr", ["type2", "offset"]),
    CorrSource("patPFJetMETtype2Corr", ["type2"])]

  function UnclusteredName(src: CorrSource, dir: string): string
  {
    src.producer + "Unclustered" + dir
  }

  /** One tag per instance label of a module. */
  function InstanceTags(name: string, instances: seq<string>): (r: seq<InputTag>)
    ensures |r| == |instances|
    ensures forall i :: 0 <= i < |r| ==> r[i] == InputTag(name, instances[i])
  {
    seq(|instances|, i requires 0 <= i < |instances| => InputTag(name, instances[i]))
  }

  function UnclusteredShift(c: Config, src: CorrSource): Module
  {
    Module(EDProducer, "ShiftedMETcorrInputProducer", map[
      "src" := TagsParam(InstanceTags(src.producer, src.instances)),
      "uncertainty" := DoubleParam(0.10),
      "shiftBy" := DoubleParam(1.0 * c.varyByNsigmas)])
  }

  /** The unclustered-energy shift pairs of the given sources, in order. */
  function UnclusteredShiftOps(c: Config, srcs: seq<CorrSource>): seq<Op>
    decreases |srcs|
  {
    if srcs == [] then []
    else
      var src := srcs[|srcs| - 1];
      UnclusteredShiftOps(c, srcs[..|srcs| - 1])
      + ShiftPair(c, UnclusteredName(src, EnUp), UnclusteredName(src, EnDown), UnclusteredShift(c, src))
  }

  /** The inputs collected for direction `dir`: each shifted source's instances, in order. */
  function UnclusteredTags(srcs: seq<CorrSource>, dir: string): seq<InputTag>
    decreases |srcs|
  {
    if srcs == [] then []
    else
      var src := srcs[|srcs| - 1];
      UnclusteredTags(srcs[..|srcs| - 1], dir) + InstanceTags(UnclusteredName(src, dir), src.instances)
  }

  lemma UnclusteredTagsSnoc(srcs: seq<CorrSource>, src: CorrSource, dir: string)
    ensures UnclusteredTags(srcs + [src], dir) == UnclusteredTags(srcs, dir) + InstanceTags(UnclusteredName(src, dir), src.instances)
  {
    assert (srcs + [src])[..|srcs|] == srcs;
  }

  lemma UnclusteredShiftOpsSnoc(c: Config, srcs: seq<CorrSource>, src: CorrSource)
    ensures UnclusteredShiftOps(c, srcs + [src]) ==
      UnclusteredShiftOps(c, srcs) + ShiftPair(c, UnclusteredName(src, EnUp), UnclusteredName(src, EnDown), UnclusteredShift(c, src))
  {
    assert (srcs + [src])[..|srcs|] == srcs;
  }

  /** One more source of a list: its shift pair and its shifted instances come after those of the sources before it. */
  lemma UnclusteredPrefixStep(c: Config, srcs: seq<CorrSource>, i: nat)
    requires i < |srcs|
    ensures UnclusteredShiftOps(c, srcs[..i + 1]) == UnclusteredShiftOps(c, srcs[..i])
      + ShiftPair(c, UnclusteredName(srcs[i], EnUp), UnclusteredName(srcs[i], EnDown), UnclusteredShift(c, srcs[i]))
    ensures UnclusteredTags(srcs[..i + 1], EnUp) == UnclusteredTags(srcs[..i], EnUp)
      + InstanceTags(UnclusteredName(srcs[i], EnUp), srcs[i].instances)
    ensures UnclusteredTags(srcs[..i + 1], EnDown) == UnclusteredTags(srcs[..i], EnDown)
      + InstanceTags(UnclusteredName(srcs[i], EnDown), srcs[i].instances)
  {
    assert srcs[..i + 1] == srcs[..i] + [srcs[i]];
    UnclusteredShiftOpsSnoc(c, srcs[..i], srcs[i]);
    UnclusteredTagsSnoc(srcs[..i], srcs[i], EnUp);
    UnclusteredTagsSnoc(srcs[..i], srcs[i], EnDown);
  }

  /** A corrected MET shifted by the unclustered energy, up then down. */
  function UnclusteredMetOps(met: string): seq<Op>
  {
    [ AddClone(met + "UnclusteredEnUp", met, MetOverride(met, UnclusteredTags(UnclusteredSources, EnUp))),
      AddClone(met + "UnclusteredEnDown", met + "UnclusteredEnUp",
        CorrectionsOverride(UnclusteredTags(UnclusteredSources, EnDown))) ]
  }

  function UnclusteredOps(c: Config): seq<Op>
  {
    UnclusteredShiftOps(c, UnclusteredSources) + UnclusteredMetOps(Type1Met) + UnclusteredMetOps(Type1p2Met)
  }

  /** The name of the shifted correction input of a particle type; it does not depend on the MET. */
  function CorrName(particleType: string, dir: string): string
  {
    JetCorr + particleType + dir
  }

  /** `_propagateMEtUncertainties`: a shifted correction input and a corrected MET, up then down. */
  function PropagateOps(particles: string, particleType: string, up: string, down: string, met: string): seq<Op>
  {
    var corrUp := ParticleCorrInput(particles, up);
    [ Add(CorrName(particleType, EnUp), corrUp),
      AddClone(met + particleType + EnUp, met, MetOverride(met, [Tag(CorrName(particleType, EnUp))])),
      Add(CorrName(particleType, EnDown), Clone(corrUp, map["srcShifted" := TagParam(Tag(down))])),
      AddClone(met + particleType + EnDown, met + particleType + EnUp,
        CorrectionsOverride([Tag(CorrName(particleType, EnDown))])) ]
  }

  function ChannelPropagation(c: Config, ch: Channel, met: string): seq<Op>
    requires ChannelNameable(c, ch)
  {
    match Collection(c, ch)
    case None => []
    case Some(collection) =>
      PropagateOps(collection, ParticleType(ch), ShiftedName(collection, EnUp), ShiftedName(collection, EnDown), met)
  }

  /** One pass of the loop over corrected METs: each present channel in order. */
  function MetPropagation(c: Config, met: string): seq<Op>
    requires NamesValid(c)
  {
    ChannelPropagation(c, Electron, met) + ChannelPropagation(c, Photon, met)
    + ChannelPropagation(c, Muon, met) + ChannelPropagation(c, Tau, met)
  }

  const CorrectedMets: seq<string> := [Type1Met, Type1p2Met]

  /** The loop over corrected METs. */
  function CrossProductOps(c: Config, mets: seq<string>): seq<Op>
    requires NamesValid(c)
    decreases |mets|
  {
    if mets == [] then []
    else CrossProductOps(c, mets[..|mets| - 1]) + MetPropagation(c, mets[|mets| - 1])
  }

  lemma CrossProductSnoc(c: Config, mets: seq<string>, met: string)
    requires NamesValid(c)
    ensures CrossProductOps(c, mets + [met]) == CrossProductOps(c, mets) + MetPropagation(c, met)
  {
    assert (mets + [met])[..|mets|] == mets;
  }

  lemma CrossProductPrefixStep(c: Config, mets: seq<string>, k: nat)
    requires NamesValid(c) && k < |mets|
    ensures CrossProductOps(c, mets[..k + 1]) == CrossProductOps(c, mets[..k]) + MetPropagation(c, mets[k])
  {
    var prefix := mets[..k + 1];
    assert prefix[..|prefix| - 1] == mets[..k];
    assert prefix[|prefix| - 1] == mets[k];
  }

  /** The shifted collections of `toolCode`: jets first, then each particle channel that is on. */
  function ShiftOps(c: Config): seq<Op>
    requires NamesValid(c)
  {
    JetOps(c)
    + ChannelOps(c, Electron) + ChannelOps(c, Photon) + ChannelOps(c, Muon) + ChannelOps(c, Tau)
  }

  /** The shifts propagated to MET: the corrections loaded, then jets, unclustered energy and particles. */
  function PropagationOps(c: Config, baseline: map<string, Module>): seq<Op>
    requires NamesValid(c)
  {
    BaselineOps(c, baseline)
    + EtaSplitOps(c, ShiftedName(c.jetCollection, EnUp), ShiftedName(c.jetCollection, EnDown))
    + UnclusteredOps(c)
    + CrossProductOps(c, CorrectedMets)
  }

  /** Every operation of `toolCode` after the sequence is created, in order. */
  function Plan(c: Config, baseline: map<string, Module>): seq<Op>
    requires NamesValid(c)
  {
    ShiftOps(c) + PropagationOps(c, baseline)
  }

  /** `patDefaultSequence += metUncertaintySequence`, when the process has that sequence. */
  function AppendToDefault(s: ProcessState): ProcessState
  {
    if DefaultSequence in s.sequences then
      s.(sequences := s.sequences[DefaultSequence := s.sequences[DefaultSequence] + [UncertaintySequence]])
    else s
  }

  /** The process `toolCode` leaves when every module name can be formed. */
  function ToolCodeState(s: ProcessState, c: Config, baseline: map<string, Module>): ProcessState
    requires NamesValid(c)
  {
    AppendToDefault(Run(WithNewSequence(s), Plan(c, baseline)))
  }

  /**
   * Any runnable list of operations started on a fresh
   * `metUncertaintySequence` and followed by the append to
   * `patDefaultSequence`: the new sequence holds what the list appends,
   * `patDefaultSequence` gains the new sequence at its end, and every other
   * sequence is as it was.
   */
  lemma NewSequenceThenDefault(s: ProcessState, ops: seq<Op>)
    requires Runnable(WithNewSequence(s), ops)
    ensures AppendToDefault(Run(WithNewSequence(s), ops)).modules == Run(WithNewSequence(s), ops).modules
    ensures AppendToDefault(Run(WithNewSequence(s), ops)).sequences.Keys == s.sequences.Keys + {UncertaintySequence}
    ensures AppendToDefault(Run(WithNewSequence(s), ops)).sequences[UncertaintySequence] == Sequenced(ops)
    ensures DefaultSequence in s.sequences ==>
      AppendToDefault(Run(WithNewSequence(s), ops)).sequences[DefaultSequence] == s.sequences[DefaultSequence] + [UncertaintySequence]
    ensures forall q :: q in s.sequences && q != UncertaintySequence && q != DefaultSequence ==>
      AppendToDefault(Run(WithNewSequence(s), ops)).sequences[q] == s.sequences[q]
  {
    RunOnNewSequence(s, ops);
    assert DefaultSequence != UncertaintySequence by {
      assert |DefaultSequence| != |UncertaintySequence|;
    }
  }

  /**
   * What `toolCode` does to the sequences: `metUncertaintySequence` holds
   * exactly the modules the plan appends, `patDefaultSequence` (when there
   * is one) gains `metUncertaintySequence` at its end, and every other
   * sequence is as it was.
   */
  lemma ToolCodeSequences(s: ProcessState, c: Config, baseline: map<string, Module>)
    requires NamesValid(c) && Runnable(WithNewSequence(s), Plan(c, baseline))
    ensures ToolCodeState(s, c, baseline).modules == Run(WithNewSequence(s), Plan(c, baseline)).modules
    ensures ToolCodeState(s, c, baseline).sequences.Keys == s.sequences.Keys + {UncertaintySequence}
    ensures ToolCodeState(s, c, baseline).sequences[UncertaintySequence] == Sequenced(Plan(c, baseline))
    ensures DefaultSequence in s.sequences ==>
      ToolCodeState(s, c, baseline).sequences[DefaultSequence] == s.sequences[DefaultSequence] + [UncertaintySequence]
    ensures forall q :: q in s.sequences && q != UncertaintySequence && q != DefaultSequence ==>
      ToolCodeState(s, c, baseline).sequences[q] == s.sequences[q]
  {
    NewSequenceThenDefault(s, Plan(c, baseline));
  }
}
