/**
 * The parameters of `RunMEtUncertainties`, their defaults, and the
 * defaulting `__call__` applies to the arguments it is given.
 *
 * Input collections are modelled by their labels: `cms.InputTag('x')` is the
 * label "x" with an empty instance, so `.value()` is the label itself.
 */
module Parameters {
  import opened Wrappers

  /** The four optional object collections whose energies are shifted. */
  datatype Channel = Electron | Photon | Muon | Tau

  /** The channels in the order the tool visits them. */
  const Channels: seq<Channel> := [Electron, Photon, Muon, Tau]

  /** The `particleType` a channel's MET propagation is named with. */
  function ParticleType(ch: Channel): (t: string)
    ensures t != ""
  {
    match ch
    case Electron => "Electron"
    case Photon => "Photon"
    case Muon => "Muon"
    case Tau => "Tau"
  }

  /** The tool's `_parameters`. */
  datatype Config = Config(
    electronCollection: Option<string>,
    photonCollection: Option<string>,
    muonCollection: Option<string>,
    tauCollection: Option<string>,
    jetCollection: string,
    dRjetCleaning: real,
    jetCorrLabel: string,
    doSmearJets: bool,
    jetSmearFileName: string,
    jetSmearHistogram: string,
    doCorrType1p2MEt: bool,
    pfCandCollection: string,
    jetCorrPayloadName: string,
    varyByNsigmas: real)

  /** The collection configured for a channel; `None` switches the channel off. */
  function Collection(c: Config, ch: Channel): Option<string>
  {
    match ch
    case Electron => c.electronCollection
    case Photon => c.photonCollection
    case Muon => c.muonCollection
    case Tau => c.tauCollection
  }

  /** The collections of the four channels, in visiting order. */
  function Collections(c: Config): (r: seq<Option<string>>)
    ensures |r| == |Channels|
    ensures forall k :: 0 <= k < |Channels| ==> r[k] == Collection(c, Channels[k])
  {
    [c.electronCollection, c.photonCollection, c.muonCollection, c.tauCollection]
  }

  /** The `_defaultParameters` registered by the constructor. */
  const Defaults: Config := Config(
    Some("cleanPatElectrons"),
    None,
    Some("cleanPatMuons"),
    Some("cleanPatTaus"),
    "cleanPatJets",
    0.5,
    "L3Absolute",
    true,
    "PhysicsTools/PatUtils/data/pfJetResolutionMCtoDataCorrLUT.root",
    "pfJetResolutionMCtoDataCorrLUT",
    false,
    "particleFlow",
    "AK5PF",
    1.0)

  /** The keyword arguments of `__call__`; `None` is an argument left out or passed as `None`. */
  datatype Arguments = Arguments(
    electronCollection: Option<string>,
    photonCollection: Option<string>,
    muonCollection: Option<string>,
    tauCollection: Option<string>,
    jetCollection: Option<string>,
    dRjetCleaning: Option<real>,
    jetCorrLabel: Option<string>,
    doSmearJets: Option<bool>,
    jetSmearFileName: Option<string>,
    jetSmearHistogram: Option<string>,
    pfCandCollection: Option<string>,
    jetCorrPayloadName: Option<string>,
    varyByNsigmas: Option<real>)

  /** `x` unless it is `None`, in which case `d`. */
  function OrElse<T>(x: Option<T>, d: T): (r: T)
    ensures x.Some? ==> r == x.value
    ensures x.None? ==> r == d
  {
    if x.Some? then x.value else d
  }

  /** An optional collection argument: `None` falls back to the default, itself possibly `None`. */
  function OrElseCollection(x: Option<string>, d: Option<string>): (r: Option<string>)
    ensures x.Some? ==> r == x
    ensures x.None? ==> r == d
  {
    if x.Some? then x else d
  }

  /**
   * The parameters `__call__` sets: each argument, or its default where it
   * is `None`. `doCorrType1p2MEt` is not an argument and keeps its value.
   */
  function Resolve(a: Arguments, doCorrType1p2MEt: bool): Config
  {
    Config(
      OrElseCollection(a.electronCollection, Defaults.electronCollection),
      OrElseCollection(a.photonCollection, Defaults.photonCollection),
      OrElseCollection(a.muonCollection, Defaults.muonCollection),
      OrElseCollection(a.tauCollection, Defaults.tauCollection),
      OrElse(a.jetCollection, Defaults.jetCollection),
      OrElse(a.dRjetCleaning, Defaults.dRjetCleaning),
      OrElse(a.jetCorrLabel, Defaults.jetCorrLabel),
      OrElse(a.doSmearJets, Defaults.doSmearJets),
      OrElse(a.jetSmearFileName, Defaults.jetSmearFileName),
      OrElse(a.jetSmearHistogram, Defaults.jetSmearHistogram),
      doCorrType1p2MEt,
      OrElse(a.pfCandCollection, Defaults.pfCandCollection),
      OrElse(a.jetCorrPayloadName, Defaults.jetCorrPayloadName),
      OrElse(a.varyByNsigmas, Defaults.varyByNsigmas))
  }

  /**
   * `None` selects the default and cannot switch a channel off: the
   * electron, muon and tau channels are always on after `__call__`, and the
   * photon channel is on exactly when a photon collection is passed.
   */
  lemma NoneDoesNotDisable(a: Arguments, b: bool)
    ensures Resolve(a, b).electronCollection.Some?
    ensures Resolve(a, b).muonCollection.Some?
    ensures Resolve(a, b).tauCollection.Some?
    ensures Resolve(a, b).photonCollection.Some? <==> a.photonCollection.Some?
    ensures a.electronCollection.None? ==> Resolve(a, b).electronCollection == Some("cleanPatElectrons")
    ensures a.muonCollection.None? ==> Resolve(a, b).muonCollection == Some("cleanPatMuons")
    ensures a.tauCollection.None? ==> Resolve(a, b).tauCollection == Some("cleanPatTaus")
  {
  }

  /** Arguments that are all `None` give back the default parameters. */
  lemma AllNoneGivesDefaults(b: bool)
    ensures Resolve(Arguments(None, None, None, None, None, None, None, None, None, None, None, None, None), b)
      == Defaults.(doCorrType1p2MEt := b)
  {
  }

  /** Every argument that is passed is taken as it is. */
  lemma PassedArgumentsKept(a: Arguments, b: bool)
    ensures var c := Resolve(a, b);
      && (a.jetCollection.Some? ==> c.jetCollection == a.jetCollection.value)
      && (a.dRjetCleaning.Some? ==> c.dRjetCleaning == a.dRjetCleaning.value)
      && (a.doSmearJets.Some? ==> c.doSmearJets == a.doSmearJets.value)
      && (a.varyByNsigmas.Some? ==> c.varyByNsigmas == a.varyByNsigmas.value)
      && (a.jetCorrPayloadName.Some? ==> c.jetCorrPayloadName == a.jetCorrPayloadName.value)
      && (a.jetCorrLabel.Some? ==> c.jetCorrLabel == a.jetCorrLabel.value)
      && (a.jetSmearFileName.Some? ==> c.jetSmearFileName == a.jetSmearFileName.value)
      && (a.jetSmearHistogram.Some? ==> c.jetSmearHistogram == a.jetSmearHistogram.value)
      && (a.pfCandCollection.Some? ==> c.pfCandCollection == a.pfCandCollection.value)
      && (a.electronCollection.Some? ==> c.electronCollection == a.electronCollection)
      && (a.photonCollection.Some? ==> c.photonCollection == a.photonCollection)
      && (a.muonCollection.Some? ==> c.muonCollection == a.muonCollection)
      && (a.tauCollection.Some? ==> c.tauCollection == a.tauCollection)
      && c.doCorrType1p2MEt == b
  {
  }
}
