# RunMEtUncertainties: a verified model of the MET-uncertainty module graph

`RunMEtUncertainties` (python/tools/metUncertaintyTools.py) is a PAT
configuration tool. It extends a `cms.Process` with a new sequence,
`metUncertaintySequence`, holding:

- the jets not overlapping with the configured electrons, photons, muons and
  taus, optionally smeared to the jet resolution in data;
- every object collection (jets, electrons, photons, muons, taus) shifted up
  and down in energy by `varyByNsigmas` standard deviations;
- the MET corrections re-derived for the shifted jets, and the type-1 and
  type-1+2 corrected MET cloned to read them;
- the "unclustered energy" corrections shifted up and down, and both corrected
  METs cloned to read them;
- for each of the two corrected METs and each particle channel that is on,
  a shifted correction input and a corrected MET re-run with it, up and down.

The sequence is then appended to `patDefaultSequence`. The tool computes no
physics: it creates, names, clones and orders configuration modules. The
model keeps exactly that.

The project has four modules (plus `Wrappers` for `Option`/`Result`):

- `Naming` (naming.dfy): the module-naming policy of `_addModuleToSequence`.
  It gives a specification (`ModuleName`: skip `None` and empty fragments,
  delete every "selected" and then every "clean", join with the camel-case
  boundary rule) and the source's loop (`BuildModuleName`) proved equal to it.
- `Parameters` (parameters.dfy): the tool's parameters, their defaults and the
  defaulting `__call__` applies.
- `Graph` (graph.dfy): the process as a value (`ProcessState`: modules by
  label, sequences as lists of labels) and the module graph as a list of
  operations (`Op`: register, clone, edit, load, splice). `Plan` is the whole
  list `toolCode` performs for a configuration, stage by stage. `Run` applies
  operations in order and `Runnable` says that every clone and edit finds the
  module it reads.
- `GraphProperties` (graph_properties.dfy): what the stages do. This covers
  which names can be formed, the shift pairs, the jet wiring, the
  unclustered-energy inputs, the cross product of METs and channels, and the
  repeated registration of the correction inputs.
- `Rewiring` (rewiring.dfy): what the propagation of the shifted jets does to
  the modules. The baseline corrections are loaded and edited, and then each
  clone is shown to be a baseline module with only the overrides of its
  direction.
- `MetUncertaintyTools` (tool.dfy): the process and the tool as classes whose
  methods change their fields in place, as the source does.
  - `Process` holds `modules` and `sequences`.
  - `RunMEtUncertainties` holds `parameters`.
  - Every method that changes the process is proved to leave it as `Run` of
    its stage's operations says.
  - `ToolCode` is proved to leave it as `Graph.ToolCodeState` says.

## Model

| member | source | states |
|---|---|---|
| Naming.ModuleName | python/tools/metUncertaintyTools.py:49-78 | the error is `EmptyNameList` exactly for an empty list; a name exists exactly when the list is non-empty and no kept fragment is emptied by stripping; the name is as long as the stripped kept fragments together |
| Naming.BuildModuleName | python/tools/metUncertaintyTools.py:51-72 | the source's loop (skip, strip, case the first character from the last kept fragment, append) returns exactly `ModuleName` of the fragments, including both errors |
| Naming.FragmentHead | python/tools/metUncertaintyTools.py:64-71 | the first fragment starts in lower case; a later letter is upper-cased exactly when the previous stripped fragment ends in a lower-case letter or a digit |
| Naming.Lower | python/tools/metUncertaintyTools.py:65 | a letter becomes lower case and stays the same letter (an upper-case letter moves by the distance from 'A' to 'a'); any other character is unchanged |
| Naming.Upper | python/tools/metUncertaintyTools.py:69 | a letter becomes upper case and stays the same letter (a lower-case letter moves by the distance from 'a' to 'A'); any other character is unchanged |
| Naming.CaseRoundTrip | python/tools/metUncertaintyTools.py:65-69 | lower-casing an upper-case letter and upper-casing it again gives the letter back, and the other way round |
| Naming.EmptiedFragmentFails | python/tools/metUncertaintyTools.py:61-65 | a kept fragment that stripping empties makes `part[0]` fail: the result is `EmptyFragment` |
| Naming.JoinLength | python/tools/metUncertaintyTools.py:65-69 | the joined name is as long as all stripped fragments together |
| Naming.JoinAt | python/tools/metUncertaintyTools.py:61-72 | each kept fragment appears at its offset in the name: the first character cased at the boundary, every later character copied unchanged |
| Naming.CamelCaseBoundary | python/tools/metUncertaintyTools.py:64-72 | the first fragment starts in lower case; a later fragment starting with a letter starts upper-case in the name exactly when the previous stripped fragment ends in a lower-case letter or a digit |
| Naming.NameSucceedsIff | python/tools/metUncertaintyTools.py:51-65 | a name is formed exactly when the list is non-empty and no kept fragment is emptied by stripping |
| Naming.AllSkippedNamesEmpty | python/tools/metUncertaintyTools.py:51-59 | a non-empty list whose fragments are all `None` or empty raises nothing and names the module "" |
| Naming.StripKeepsHead | python/tools/metUncertaintyTools.py:61-62 | a fragment that starts with neither 'c' nor (if long enough) 's' keeps its first character and is not emptied |
| Naming.StripKeepsChar | python/tools/metUncertaintyTools.py:61-62 | a fragment holding a character found in neither "selected" nor "clean" is not emptied by stripping |
| Naming.RemoveAllAbsent | python/tools/metUncertaintyTools.py:61-62 | a string without the pattern is left unchanged |
| Naming.RemoveAllLeftmost | python/tools/metUncertaintyTools.py:61-62 | the leftmost occurrence is deleted and the scan resumes after it |
| Naming.RemoveAllKeepsChar | python/tools/metUncertaintyTools.py:61-62 | a character that is not in the pattern survives the deletion |
| Naming.RemoveAllKeepsHead | python/tools/metUncertaintyTools.py:61-62 | a string not starting with the pattern's first character keeps its first character |
| Naming.NoCandidateUnchanged | python/tools/metUncertaintyTools.py:61-62 | a string with no position that could start the pattern is unchanged |
| Naming.SelectedRemovalJoinsClean | python/tools/metUncertaintyTools.py:61 | deleting "selected" from "cleselectedan" leaves "clean" |
| Naming.StripOrderMatters | python/tools/metUncertaintyTools.py:61-62 | "selected" is deleted before "clean", so "cleselectedan" strips to "" |
| Naming.RemovalNotRescanned | python/tools/metUncertaintyTools.py:62 | a deletion that brings a new "clean" together is not scanned again: "clecleanan" gives "clean" |
| Naming.StripCleanPatJets | python/tools/metUncertaintyTools.py:61-62 | the default jet collection "cleanPatJets" strips to "PatJets" |
| Naming.ThreePartName | python/tools/metUncertaintyTools.py:57-72 | a three-fragment name with surviving outer fragments skips an empty middle, fails when stripping empties it, and otherwise joins the three stripped fragments |
| Naming.ShiftedJetsJoin | python/tools/metUncertaintyTools.py:64-72 | "shifted", "PatJets", "EnUp" join to "shiftedPatJetsEnUp" |
| Naming.ShiftedAK5PFJetsJoin | python/tools/metUncertaintyTools.py:68-71 | after a fragment ending in an upper-case letter the next starts lower-case: "shiftedPatJetsAK5PFenUp" |
| Naming.ShiftedJetsName | python/tools/metUncertaintyTools.py:225 | the up-shifted default jets are registered as "shiftedPatJetsEnUp" |
| Parameters.Collections | python/tools/metUncertaintyTools.py:191 | the four channel collections, in the order electron, photon, muon, tau |
| Parameters.NoneDoesNotDisable | python/tools/metUncertaintyTools.py:128-135 | after `__call__` the electron, muon and tau channels are always on, with the defaults when `None` was passed; photons are on exactly when a photon collection is passed |
| Parameters.AllNoneGivesDefaults | python/tools/metUncertaintyTools.py:128-167 | no arguments give back the default parameters |
| Parameters.PassedArgumentsKept | python/tools/metUncertaintyTools.py:128-167 | each of the thirteen arguments that is passed (the four collections, the jet collection, `dRjetCleaning`, `jetCorrLabel`, `doSmearJets`, `jetSmearFileName`, `jetSmearHistogram`, `pfCandCollection`, `varyByNsigmas`, `jetCorrPayloadName`) is stored as it is; `doCorrType1p2MEt` is not touched |
| Graph.CloneTwice | python/tools/metUncertaintyTools.py:357-363 | a clone of a clone is one clone of the original with both sets of overrides, the later ones winning |
| Graph.RunConcat | python/tools/metUncertaintyTools.py:186-481 | running two lists of operations in turn is running their concatenation, runnable exactly when both parts are |
| Graph.SequencedConcat | python/tools/metUncertaintyTools.py:186-481 | the labels appended by two lists one after the other are the labels of their concatenation |
| Graph.RunAppends | python/tools/metUncertaintyTools.py:76 | a runnable list extends `metUncertaintySequence` by exactly the labels it appends, in order; no other sequence changes and none is added |
| Graph.RunOnNewSequence | python/tools/metUncertaintyTools.py:186 | started from a fresh `metUncertaintySequence`, a runnable list leaves in it exactly its labels, adds no other sequence and leaves the others unchanged |
| Graph.RunRegisters | python/tools/metUncertaintyTools.py:74-76 | no module is removed; every label appended is a registered module or a spliced sequence |
| Graph.NewSequenceThenDefault | python/tools/metUncertaintyTools.py:479-481 | the new sequence holds exactly the appended labels; `patDefaultSequence`, when present, gains `metUncertaintySequence` at its end; no other sequence changes |
| Graph.ToolCodeSequences | python/tools/metUncertaintyTools.py:186-481 | after `toolCode`, `metUncertaintySequence` holds exactly the labels of the plan; `patDefaultSequence`, when present, ends with it; no other sequence changes |
| GraphProperties.ThreePartNameableIff | python/tools/metUncertaintyTools.py:225 | fixed fragments around a collection label can be named exactly when the label is empty or survives stripping |
| GraphProperties.TwoPartNameableIff | python/tools/metUncertaintyTools.py:201 | two fragments, one of them fixed and surviving, can be named exactly when both are usable |
| GraphProperties.ShiftNameableIff | python/tools/metUncertaintyTools.py:225-230 | the shifted collection names can be formed exactly when the label is usable |
| GraphProperties.FilterNameableIff | python/tools/metUncertaintyTools.py:201 | the anti-overlap filter can be named exactly when the jet label is usable |
| GraphProperties.SmearNameableIff | python/tools/metUncertaintyTools.py:212 | the smeared jets can be named exactly when the jet label is usable |
| GraphProperties.JetNamesValidIff | python/tools/metUncertaintyTools.py:194-230 | all jet modules can be named exactly when the jet label is usable |
| GraphProperties.ChannelNameableIff | python/tools/metUncertaintyTools.py:236-328 | a channel's shifted modules can be named exactly when it is off or its label is usable |
| GraphProperties.NamesValidIff | python/tools/metUncertaintyTools.py:194-328 | every name `toolCode` asks for can be formed exactly when the jet label and every present channel's label are usable |
| GraphProperties.CleanJetsUnnameable | python/tools/metUncertaintyTools.py:201 | a jet collection labelled "clean" cannot be named: `toolCode` fails on its first module |
| GraphProperties.DefaultsNameable | python/tools/metUncertaintyTools.py:15-41 | every name of the default configuration can be formed |
| GraphProperties.PresentMembers | python/tools/metUncertaintyTools.py:190-193 | a label is collected exactly when it is the value of one of the candidates |
| GraphProperties.CollectionsForJetCleaning | python/tools/metUncertaintyTools.py:190-196 | the filter's `srcNotToBeFiltered` is the non-`None` electron, photon, muon and tau collections in that order |
| GraphProperties.PresentCountIsExclusions | python/tools/metUncertaintyTools.py:190-196 | the filter's exclusion list has one entry per channel that is on, and is empty exactly when every channel is off |
| GraphProperties.DefaultCollectionsForJetCleaning | python/tools/metUncertaintyTools.py:15-21 | with the defaults the filter keeps "cleanPatElectrons", "cleanPatMuons" and "cleanPatTaus" apart from the jets |
| GraphProperties.SequencedNames | python/tools/metUncertaintyTools.py:186-481 | operations that each append one label append one label each, in order |
| GraphProperties.SequencedPair | python/tools/metUncertaintyTools.py:225-230 | two operations append their labels in order |
| GraphProperties.ShiftPairMirror | python/tools/metUncertaintyTools.py:218-230 | a shift pair appends up then down, adjacent; the down module is the up module with only `shiftBy` set to `-varyByNsigmas` |
| GraphProperties.ChannelShiftPair | python/tools/metUncertaintyTools.py:236-328 | a channel that is off appends nothing; one that is on appends its up module, reading its collection with `shiftBy = +varyByNsigmas`, then the mirrored down module |
| GraphProperties.ChannelUncertainties | python/tools/metUncertaintyTools.py:241-319 | electron and photon barrel/endcap bins of 0.01 and 0.025; muon uncertainty 0.01; tau uncertainty 0.03 |
| GraphProperties.JetWiringUnsmeared | python/tools/metUncertaintyTools.py:194-230 | without smearing: the filter, then the shift pair reading the filter |
| GraphProperties.JetWiringSmeared | python/tools/metUncertaintyTools.py:205-230 | with smearing: the filter, the smeared jets reading it, then the shift pair reading the smeared jets |
| GraphProperties.UnclusteredInputsFor | python/tools/metUncertaintyTools.py:409-434 | one direction's inputs: the shifted candidate correction, then the "type2" and "offset" outputs of the shifted type-1+2 correction, then the "type2" output of the shifted type-2 correction |
| GraphProperties.InstancesOfJetCorr | python/tools/metUncertaintyTools.py:411 | the type-1+2 jet correction contributes "type2" then "offset" |
| GraphProperties.UnclusteredInputsUp | python/tools/metUncertaintyTools.py:427 | the four up-shifted input tags, spelled out |
| GraphProperties.UnclusteredInputsDown | python/tools/metUncertaintyTools.py:434 | the four down-shifted input tags, spelled out |
| GraphProperties.UnclusteredNamesSpelled | python/tools/metUncertaintyTools.py:424-431 | the names `<src>UnclusteredEnUp` / `<src>UnclusteredEnDown` of the three sources |
| GraphProperties.UnclusteredShiftOpsSplit | python/tools/metUncertaintyTools.py:416-434 | the loop appends the three sources' shift pairs in order |
| GraphProperties.UnclusteredShiftOrder | python/tools/metUncertaintyTools.py:416-434 | six modules: for each source in order, its up shift then its down shift; the up module shifts by `+varyByNsigmas` and the down module is the up module with only `shiftBy` set to `-varyByNsigmas` (`MirroredAt`) |
| GraphProperties.PropagateShape | python/tools/metUncertaintyTools.py:80-112 | four modules in the order CorrEnUp, METEnUp, CorrEnDown, METEnDown; corr names depend only on the particle type, MET names are label + type + direction; each down module differs from its up module in one parameter |
| GraphProperties.CrossProductOrder | python/tools/metUncertaintyTools.py:460-477 | the loop over corrected METs does the type-1 MET then the type-1+2 MET, each with every present channel |
| GraphProperties.CrossProductFirst | python/tools/metUncertaintyTools.py:460-477 | the first pass alone is the type-1 MET's propagation |
| GraphProperties.CorrInputsRegisteredTwice | python/tools/metUncertaintyTools.py:86-102 | the second pass registers the same correction-input names with the same modules again; its MET names differ |
| GraphProperties.ReRegistration | python/tools/metUncertaintyTools.py:86-88 | registering the same module under the same name again changes no module and appends the name a second time |
| GraphProperties.ShiftedNameCollision | python/tools/metUncertaintyTools.py:316-323 | with the default jets "cleanPatJets" and "selectedPatJets" as taus, both shifted-up names are "shiftedPatJetsEnUp"; after the shift stage that name holds the tau shifter, whose plugin is not the jet shifter's, and the propagation that follows clones the first jet selection to read that name |
| GraphProperties.CollisionWhenTausSelected | python/tools/metUncertaintyTools.py:225-323 | for any nameable configuration with jets "cleanPatJets" and taus "selectedPatJets", the tau shift pair registered last replaces the up-shifted jets under "shiftedPatJetsEnUp" |
| GraphProperties.PropagationReadsShiftedJets | python/tools/metUncertaintyTools.py:348-350 | the plan runs the propagation on the state the shift stage leaves, and its first clone after the baseline reads the shifted-up jet name |
| GraphProperties.PatJetsShiftedNames | python/tools/metUncertaintyTools.py:225 | "cleanPatJets" and "selectedPatJets" shifted up are both named "shiftedPatJetsEnUp"; "selectedPatJets" shifted down is "shiftedPatJetsEnDown" |
| Naming.StripSelectedPatJets | python/tools/metUncertaintyTools.py:61-62 | "selectedPatJets" strips to "PatJets", as "cleanPatJets" does |
| Naming.SelectedPatJetsShiftedName | python/tools/metUncertaintyTools.py:57-72 | the shifted-up name of "selectedPatJets" is that of "cleanPatJets": "shiftedPatJetsEnUp" |
| Naming.SelectedPatJetsShiftedDownName | python/tools/metUncertaintyTools.py:57-72 | the shifted-down name of "selectedPatJets" is "shiftedPatJetsEnDown" |
| Rewiring.ClonePairRewired | python/tools/metUncertaintyTools.py:366-374 | a clone and a clone of it, both registered; the second is the original with both sets of overrides |
| Rewiring.CrossedClonePairs | python/tools/metUncertaintyTools.py:348-363 | two clones and then a clone of each: the later clones descend from the original modules with both sets of overrides |
| Rewiring.BaselineRewired | python/tools/metUncertaintyTools.py:334-338 | after the load, the edits and the splice: the baseline modules replace any of the same name; both jet selections are the baseline ones reading the configured jets, the candidate cleaning reads the configured candidates, and nothing else of them changes |
| Rewiring.JetSelectionsRewired | python/tools/metUncertaintyTools.py:348-363 | each of the four shifted selections is the selection of its type with only `src` replaced by the jets shifted in its direction; nothing else changes |
| Rewiring.CorrectionsRewired | python/tools/metUncertaintyTools.py:366-374 | both shifted corrections are the baseline corrections with the configured `jetCorrLabel`, each reading the selection of its direction |
| Rewiring.MetShiftPairRewired | python/tools/metUncertaintyTools.py:376-402 | a MET cloned up and then its up clone cloned down: both read the baseline MET, each with only the corrections of its own direction |
| Rewiring.JetMetRewired | python/tools/metUncertaintyTools.py:376-402 | a corrected MET shifted by the jet energy scale reads the `type1` output of the shifted corrections of each direction |
| Rewiring.UnclusteredMetRewired | python/tools/metUncertaintyTools.py:436-454 | a corrected MET shifted by the unclustered energy reads every shifted source of each direction, and nothing of the other direction |
| Rewiring.EtaSplitRewired | python/tools/metUncertaintyTools.py:348-402 | the ten modules of the jet propagation, each as a clone of a baseline module with the overrides of its direction; every module present before, the baseline ones included, is unchanged |
| MetUncertaintyTools.Process.SetAttr | python/tools/metUncertaintyTools.py:74 | the attribute is added or replaced; nothing else changes |
| MetUncertaintyTools.Process.AppendTo | python/tools/metUncertaintyTools.py:76 | the label is appended once at the end of that sequence; nothing else changes |
| MetUncertaintyTools.Process.NewSequence | python/tools/metUncertaintyTools.py:186 | the sequence is set to empty; modules unchanged |
| MetUncertaintyTools.Process.Load | python/tools/metUncertaintyTools.py:334 | the loaded modules are added or replaced; sequences unchanged |
| MetUncertaintyTools.Process.SetParameter | python/tools/metUncertaintyTools.py:335-337 | one parameter of one module is replaced; nothing else changes |
| MetUncertaintyTools.Register | python/tools/metUncertaintyTools.py:87-88 | `setattr` then `+=`: the process is as the register operation says |
| MetUncertaintyTools.RegisterClone | python/tools/metUncertaintyTools.py:348-351 | a clone of a module in the process registered and appended |
| MetUncertaintyTools.DirectionNameNotMet | python/tools/metUncertaintyTools.py:86-110 | a name ending in "EnUp"/"EnDown" is never a corrected MET's, so propagation never replaces the METs it reads |
| MetUncertaintyTools.RunMEtUncertainties.constructor | python/tools/metUncertaintyTools.py:13-43 | a new tool holds the default parameters |
| MetUncertaintyTools.RunMEtUncertainties.AddModuleToSequence | python/tools/metUncertaintyTools.py:49-78 | returns `ModuleName`; on success the module is registered under it and appended once at the end of the sequence, nothing else changing; on an error nothing changes |
| MetUncertaintyTools.RunMEtUncertainties.PropagateMEtUncertainties | python/tools/metUncertaintyTools.py:80-112 | the process ends as the four propagation operations say, all runnable; the corrected METs it reads are not replaced |
| MetUncertaintyTools.RunMEtUncertainties.CollectionsForJetCleaning | python/tools/metUncertaintyTools.py:190-193 | the loop collects exactly the non-`None` channel collections, in order |
| MetUncertaintyTools.RunMEtUncertainties.AddAntiOverlapFilter | python/tools/metUncertaintyTools.py:190-201 | the filter is named by `ModuleName` and registered as the anti-overlap module |
| MetUncertaintyTools.RunMEtUncertainties.SmearJets | python/tools/metUncertaintyTools.py:205-212 | the smeared jets read the given collection and are registered under their formed name |
| MetUncertaintyTools.RunMEtUncertainties.CleanJets | python/tools/metUncertaintyTools.py:190-212 | succeeds exactly when the filter, and the smeared jets when smearing is on, can be named; returns the last jet collection; the process is as the jet-cleaning operations say |
| MetUncertaintyTools.RunMEtUncertainties.ShiftJets | python/tools/metUncertaintyTools.py:190-230 | succeeds exactly when the jet names can be formed; returns the shifted jet names; the process is as the jet operations say |
| MetUncertaintyTools.RunMEtUncertainties.ShiftChannel | python/tools/metUncertaintyTools.py:236-328 | succeeds exactly when the channel is off or nameable; returns nothing for a channel that is off and the shifted names otherwise; the process is as the channel's operations say |
| MetUncertaintyTools.RunMEtUncertainties.AddShiftPair | python/tools/metUncertaintyTools.py:218-230 | succeeds exactly when the shifted names can be formed; the up module and its down clone are appended under them |
| MetUncertaintyTools.RunMEtUncertainties.LoadCorrections | python/tools/metUncertaintyTools.py:334-338 | the baseline is loaded, its jet selections and candidate cleaning point at the configured collections, and its sequence is appended |
| MetUncertaintyTools.RunMEtUncertainties.CloneJetSelections | python/tools/metUncertaintyTools.py:348-363 | the two jet selections are cloned to read the up-shifted jets, then the down-shifted jets |
| MetUncertaintyTools.RunMEtUncertainties.CloneJetCorrections | python/tools/metUncertaintyTools.py:366-374 | the type-1+2 corrections are re-derived from the shifted selections, up then down |
| MetUncertaintyTools.RunMEtUncertainties.ShiftJetMet | python/tools/metUncertaintyTools.py:376-402 | a corrected MET is cloned to read the shifted jet corrections, up then down |
| MetUncertaintyTools.RunMEtUncertainties.PropagateShiftedJets | python/tools/metUncertaintyTools.py:348-402 | the shifted jets are propagated to both corrected METs in source order |
| MetUncertaintyTools.RunMEtUncertainties.ShiftUnclusteredEnergy | python/tools/metUncertaintyTools.py:409-434 | the loop appends each source's shift pair in order and collects exactly the per-direction input tags |
| MetUncertaintyTools.RunMEtUncertainties.ShiftUnclusteredSource | python/tools/metUncertaintyTools.py:417-434 | one source shifted up and down, with the instance tags of each shifted module |
| MetUncertaintyTools.RunMEtUncertainties.ShiftUnclusteredMet | python/tools/metUncertaintyTools.py:436-454 | a corrected MET is cloned to read the shifted unclustered energy, up then down |
| MetUncertaintyTools.RunMEtUncertainties.PropagateUnclusteredEnergy | python/tools/metUncertaintyTools.py:409-454 | the shifted sources, then both corrected METs reading them |
| MetUncertaintyTools.RunMEtUncertainties.PropagateChannel | python/tools/metUncertaintyTools.py:463-477 | one channel propagated to one MET when it is on, nothing otherwise; the corrected METs are not replaced |
| MetUncertaintyTools.RunMEtUncertainties.PropagateToMet | python/tools/metUncertaintyTools.py:460-477 | one pass of the MET loop: electron, photon, muon and tau propagated in order to that MET |
| MetUncertaintyTools.RunMEtUncertainties.ShiftCollections | python/tools/metUncertaintyTools.py:190-328 | succeeds exactly when every name can be formed; returns all shifted names; the process is as the shift stage says |
| MetUncertaintyTools.RunMEtUncertainties.PropagateParticles | python/tools/metUncertaintyTools.py:460-477 | the loop over the type-1 and type-1+2 METs propagates every present channel to each, in order |
| MetUncertaintyTools.RunMEtUncertainties.PropagateToEachMet | python/tools/metUncertaintyTools.py:460-477 | for each MET of the list in order, the process is as the cross-product operations say |
| MetUncertaintyTools.RunMEtUncertainties.PropagateShifts | python/tools/metUncertaintyTools.py:334-477 | the baseline, the shifted jets, the unclustered energy and the particles propagated to MET, in order |
| MetUncertaintyTools.RunMEtUncertainties.BuildSequence | python/tools/metUncertaintyTools.py:186-477 | fails exactly when some name cannot be formed; otherwise the whole plan is runnable and performed |
| MetUncertaintyTools.RunMEtUncertainties.AppendToDefaultSequence | python/tools/metUncertaintyTools.py:479-481 | the error is raised exactly when `patDefaultSequence` is missing; otherwise the new sequence is appended to it |
| MetUncertaintyTools.RunMEtUncertainties.ToolCode | python/tools/metUncertaintyTools.py:171-481 | a naming error exactly when some name cannot be formed; no error exactly when names are valid and `patDefaultSequence` exists; with valid names the plan is runnable and the process ends as `ToolCodeState` says, even when `patDefaultSequence` is missing |
| MetUncertaintyTools.RunMEtUncertainties.Call | python/tools/metUncertaintyTools.py:114-169 | the stored parameters are the arguments with defaults for `None`; then `toolCode` as above |

## Left out

- The producers the modules configure (`ShiftedPATJetProducer`, `SmearedPATJetProducer`, `ShiftedMETcorrInputProducer` and the others), the ROOT smearing table and the physics of the uncertainty constants: these are opaque parameter values.
- `process.load("PhysicsTools.PatUtils.patPFMETCorrections_cff")` reads an external file. It is modelled as a `baseline` map parameter, required to define the modules `toolCode` later reads (`BaselineModules`). A missing one is an `AttributeError` in the source, which it does not handle.
- The `ConfigToolBase` machinery (`addParameter`, `setParameter`, `apply`, `SortedKeysDict`, `deepcopy`, type checks) and the `cms.*` constructors are library code. Parameters are a record and `apply` is a call of `ToolCode`. The input tags the tool itself builds are `(label, instance)` pairs.
- Collections passed in (the channel, jet and candidate collections) are bare module labels. An instance or process label of a passed `cms.InputTag` is not modelled, and `jetCollection.value()` in a module name is taken to be that label.
- MetUncertaintyTools.Process.Load: only the loaded file's modules are added. Its sequences, among them `producePatPFMETCorrections` (spliced in at line 338), are not added to `sequences`; the splice appends the label alone.
- Graph.ToolCodeSequences: "no other sequence changes and none is added" holds for the model. In the source the load also adds the sequences of the loaded file.
- `cms.double` values are `real`; no floating-point rounding is modelled.
- `correctedMET.label()` is passed explicitly as the MET's process label.
- `hasattr(process, "patDefaultSequence")` is checked only among the process's sequences.
- A clone or edit of a module the process lacks raises `AttributeError` in the source. It is a no-op in `Graph.Apply`, and every contract proves that it does not happen (`Runnable`).
- interface/JetIDSelectionFunctor.h is not part of this model (floating-point cuts over a selector base class that is not available).
- MetUncertaintyTools.RunMEtUncertainties.ToolCode: after a naming error the state of the process is not described, only that the error is reported. The source leaves the modules registered before the failure in place.
- Naming: case mapping is ASCII only (`lower()`, `capitalize()` and `islower()` on other characters are not modelled).

## Notes on the source

- At a fragment boundary the code upper-cases the next fragment's first character only when the previous stripped fragment ends in a lower-case letter or a digit. Otherwise it lower-cases it, so "PatJetsAK5PF" shifted up is named "shiftedPatJetsAK5PFenUp" (`Naming.ShiftedAK5PFJetsJoin`). The model follows the code.
- A fragment that stripping empties (for example "clean", or "cleselectedan") makes `part[0]` raise an `IndexError`. This is modelled as the error `EmptyFragment`, which `ToolCode` reports as a naming failure.
- The correction-input names of `_propagateMEtUncertainties` depend only on the particle type. The pass for the type-1+2 MET therefore re-registers them under the same names and appends them to the sequence a second time (`GraphProperties.CorrInputsRegisteredTwice`, `GraphProperties.ReRegistration`).
- A channel collection that strips to the same fragment as the jet collection gets the jets' shifted names. For example, "selectedPatJets" as taus with the default jets "cleanPatJets" gives "shiftedPatJetsEnUp" for both. `setattr` then replaces the shifted jets by the shifted taus, yet the jet selections of lines 348-363 are cloned to read that name as jets (`GraphProperties.ShiftedNameCollision`). The source does not guard against this, and the model keeps its behaviour.
- The `patDefaultSequence` check runs after every module has been registered, so a process without it is left fully extended when the error is raised (`ToolCode`).
