/**
 * The datastore contract, as the shared datastore test helpers drive it: each method
 * below performs one helper's sequence of calls on a store and promises, in its
 * postconditions, every outcome that the helper asserts.
 *
 * The helpers' random strings are parameters, required to differ from the field they
 * overwrite.
 */
module DataStoreScenarios {
  import opened Wrappers
  import opened DataStores

  /** Trials numbered 1, 2, ..., n of one study, in that order. */
  ghost predicate NumberedTrials(study: StudyResource, trials: seq<Trial>)
  {
    forall i :: 0 <= i < |trials| ==> trials[i].name == TrialResource(study, i + 1)
  }

  /** A study appended last, with its name not taken before, is found at the last position. */
  lemma LastStudyFound(studies: seq<StudyNode>, node: StudyNode)
    requires Unique(studies + [node], StudyKey)
    ensures Find(studies + [node], StudyKey, node.study.name) == Some(|studies|)
  {
    FindUnique(studies + [node], StudyKey, |studies|);
  }

  /** Creating the study of an owner that has none yet succeeds. */
  method CreateFirstStudy(ds: DataStore, study: Study)
    requires ds.Valid() && ds.ListStudies(study.name.ownerId) == []
    modifies ds
    ensures ds.Valid() && ds.suggestionOps == old(ds.suggestionOps)
    ensures ds.studies == old(ds.studies) + [StudyNode(study, [], [])]
    ensures Find(ds.studies, StudyKey, study.name) == Some(|old(ds.studies)|)
  {
    assert forall i :: 0 <= i < |ds.studies| ==> StudyKey(ds.studies[i]) != study.name;
    var outcome := ds.CreateStudy(study);
    LastStudyFound(old(ds.studies), StudyNode(study, [], []));
  }

  // ---------------------------------------------------------------------------------
  // Calls known to succeed, each with its effect
  // ---------------------------------------------------------------------------------

  /** Creating a trial with a new id under an existing study. */
  method AddTrial(ds: DataStore, k: nat, trial: Trial) returns (copy: Result<Trial, DataStoreError>)
    requires ds.Valid() && k < |ds.studies| && Find(ds.studies, StudyKey, trial.name.study) == Some(k)
    requires Find(ds.studies[k].trials, TrialKey, trial.name.trialId).None?
    modifies ds
    ensures ds.Valid() && ds.suggestionOps == old(ds.suggestionOps)
    ensures ds.studies == old(ds.studies)[k := old(ds.studies)[k].(trials := old(ds.studies)[k].trials + [trial])]
    ensures copy == Ok(trial)
  {
    var outcome := ds.CreateTrial(trial);
    copy := ds.GetTrial(trial.name);
  }

  /** Updating the stored trial at position i of the study at position k. */
  method ReplaceTrial(ds: DataStore, k: nat, i: nat, trial: Trial)
    requires ds.Valid() && k < |ds.studies| && Find(ds.studies, StudyKey, trial.name.study) == Some(k)
    requires Find(ds.studies[k].trials, TrialKey, trial.name.trialId) == Some(i)
    modifies ds
    ensures ds.Valid() && ds.suggestionOps == old(ds.suggestionOps)
    ensures ds.studies == old(ds.studies)[k := old(ds.studies)[k].(trials := old(ds.studies)[k].trials[i := trial])]
    ensures ds.GetTrial(trial.name) == Ok(trial)
  {
    var outcome := ds.UpdateTrial(trial);
  }

  /** Deleting the stored trial at position i of the study at position k. */
  method RemoveTrial(ds: DataStore, k: nat, i: nat, name: TrialResource)
    requires ds.Valid() && k < |ds.studies| && Find(ds.studies, StudyKey, name.study) == Some(k)
    requires Find(ds.studies[k].trials, TrialKey, name.trialId) == Some(i)
    modifies ds
    ensures ds.Valid() && ds.suggestionOps == old(ds.suggestionOps)
    ensures ds.studies == old(ds.studies)[k := old(ds.studies)[k].(trials := RemoveAt(old(ds.studies)[k].trials, i))]
  {
    var outcome := ds.DeleteTrial(name);
  }

  /** Creating a suggestion operation with a new name. */
  method AddSuggestionOperation(ds: DataStore, op: SuggestionOperation)
    requires ds.Valid() && Find(ds.suggestionOps, SuggestionKey, op.name).None?
    modifies ds
    ensures ds.Valid() && ds.studies == old(ds.studies)
    ensures ds.suggestionOps == old(ds.suggestionOps) + [op]
  {
    var outcome := ds.CreateSuggestionOperation(op);
  }

  /** Updating the stored suggestion operation at position i. */
  method ReplaceSuggestionOperation(ds: DataStore, i: nat, op: SuggestionOperation)
    requires ds.Valid() && Find(ds.suggestionOps, SuggestionKey, op.name) == Some(i)
    modifies ds
    ensures ds.Valid() && ds.studies == old(ds.studies)
    ensures ds.suggestionOps == old(ds.suggestionOps)[i := op]
    ensures ds.GetSuggestionOperation(op.name) == Ok(op)
  {
    var outcome := ds.UpdateSuggestionOperation(op);
  }

  /** Creating an early-stopping operation for a trial that has none, under an existing study. */
  method AddEarlyStoppingOperation(ds: DataStore, k: nat, op: EarlyStoppingOperation)
    requires ds.Valid() && k < |ds.studies| && Find(ds.studies, StudyKey, op.name.study) == Some(k)
    requires Find(ds.studies[k].earlyStoppingOps, EarlyStoppingKey, op.name.trialId).None?
    modifies ds
    ensures ds.Valid() && ds.suggestionOps == old(ds.suggestionOps)
    ensures ds.studies == old(ds.studies)[k := old(ds.studies)[k].(earlyStoppingOps := old(ds.studies)[k].earlyStoppingOps + [op])]
  {
    var outcome := ds.CreateEarlyStoppingOperation(op);
  }

  /** Updating the stored early-stopping operation at position i of the study at position k. */
  method ReplaceEarlyStoppingOperation(ds: DataStore, k: nat, i: nat, op: EarlyStoppingOperation)
    requires ds.Valid() && k < |ds.studies| && Find(ds.studies, StudyKey, op.name.study) == Some(k)
    requires Find(ds.studies[k].earlyStoppingOps, EarlyStoppingKey, op.name.trialId) == Some(i)
    modifies ds
    ensures ds.Valid() && ds.suggestionOps == old(ds.suggestionOps)
    ensures ds.GetEarlyStoppingOperation(op.name) == Ok(op)
  {
    var outcome := ds.UpdateEarlyStoppingOperation(op);
  }

  // ---------------------------------------------------------------------------------
  // The helpers
  // ---------------------------------------------------------------------------------

  /** The (i+1)-th trial of the last study is created, and read back equal. */
  method CreateNextTrial(ds: DataStore, ghost earlier: seq<StudyNode>, node: StudyNode, trials: seq<Trial>, i: nat)
    returns (copy: Result<Trial, DataStoreError>)
    requires i < |trials| && NumberedTrials(node.study.name, trials)
    requires ds.Valid() && ds.studies == earlier + [node.(trials := trials[..i])]
    modifies ds
    ensures ds.Valid() && ds.suggestionOps == old(ds.suggestionOps)
    ensures ds.studies == earlier + [node.(trials := trials[..i + 1])]
    ensures copy == Ok(trials[i])
  {
    LastStudyFound(earlier, node.(trials := trials[..i]));
    assert forall j :: 0 <= j < i ==> TrialKey(trials[..i][j]) == j + 1;
    copy := AddTrial(ds, |ds.studies| - 1, trials[i]);
    assert trials[..i] + [trials[i]] == trials[..i + 1];
  }

  /**
   * Creates the trials one after the other under the last study, which has none yet;
   * each is read back equal right after its creation.
   */
  method CreateTrials(ds: DataStore, trials: seq<Trial>) returns (copies: seq<Result<Trial, DataStoreError>>)
    requires ds.Valid() && |ds.studies| > 0 && ds.studies[|ds.studies| - 1].trials == []
    requires NumberedTrials(ds.studies[|ds.studies| - 1].study.name, trials)
    modifies ds
    ensures ds.Valid() && ds.suggestionOps == old(ds.suggestionOps)
    ensures ds.studies == old(ds.studies)[..|old(ds.studies)| - 1] + [old(ds.studies)[|old(ds.studies)| - 1].(trials := trials)]
    ensures |copies| == |trials| && forall i :: 0 <= i < |trials| ==> copies[i] == Ok(trials[i])
  {
    ghost var earlier := ds.studies[..|ds.studies| - 1];
    var node := ds.studies[|ds.studies| - 1];
    assert ds.studies == earlier + [node.(trials := trials[..0])];
    copies := [];
    for i := 0 to |trials|
      invariant ds.Valid() && ds.suggestionOps == old(ds.suggestionOps)
      invariant ds.studies == earlier + [node.(trials := trials[..i])]
      invariant |copies| == i && forall j :: 0 <= j < i ==> copies[j] == Ok(trials[j])
    {
      var copy := CreateNextTrial(ds, earlier, node, trials, i);
      copies := copies + [copy];
    }
    assert trials[..|trials|] == trials;
  }

  /**
   * The study contract: after creation the study loads back equal and is its owner's
   * only study; a later change to the caller's copy leaves the stored study as it was;
   * after deletion the owner lists no study.
   */
  method StudyAPI(ds: DataStore, study: Study, reason: string)
    returns (loaded: Result<Study, DataStoreError>, listed: seq<Study>,
             reloaded: Result<Study, DataStoreError>, listedAfterDelete: seq<Study>)
    requires ds.Valid() && ds.ListStudies(study.name.ownerId) == []
    requires reason != study.inactiveReason
    modifies ds
    ensures loaded == Ok(study)
    ensures listed == [study]
    ensures reloaded == Ok(study) && reloaded.value != study.(inactiveReason := reason)
    ensures listedAfterDelete == []
  {
    var owner := study.name.ownerId;
    ghost var before := ds.studies;
    CreateFirstStudy(ds, study);
    loaded := ds.LoadStudy(study.name);
    listed := ds.ListStudies(owner);
    StudiesOfAppend(before, [StudyNode(study, [], [])], owner);
    assert StudiesOf([StudyNode(study, [], [])][1..], owner) == [];
    var changed := study.(inactiveReason := reason);
    reloaded := ds.LoadStudy(study.name);
    var deleted := ds.DeleteStudy(study.name);
    assert ds.studies == before;
    listedAfterDelete := ds.ListStudies(owner);
  }

  /**
   * The trial contract: trials created in order read back equal; the largest id is
   * their number; they list in creation order; an updated trial reads back updated;
   * deleting the first leaves the others, in order.
   */
  method TrialAPI(ds: DataStore, study: Study, trials: seq<Trial>, reason: string)
    returns (copies: seq<Result<Trial, DataStoreError>>, maxId: Result<nat, DataStoreError>,
             listed: Result<seq<Trial>, DataStoreError>, updated: Result<Trial, DataStoreError>,
             leftover: Result<seq<Trial>, DataStoreError>)
    requires ds.Valid() && ds.ListStudies(study.name.ownerId) == []
    requires |trials| > 0 && NumberedTrials(study.name, trials)
    modifies ds
    ensures |copies| == |trials| && forall i :: 0 <= i < |trials| ==> copies[i] == Ok(trials[i])
    ensures maxId == Ok(|trials|)
    ensures listed == Ok(trials)
    ensures updated == Ok(trials[0].(infeasibleReason := reason))
    ensures leftover == Ok(trials[1..])
  {
    ghost var before := ds.studies;
    copies, maxId, listed := CreateAndListTrials(ds, study, trials);
    var first := trials[0].(infeasibleReason := reason);
    updated := UpdateFirstTrial(ds, before, study, trials, first);
    DeleteFirstTrial(ds, before, study, trials[0 := first]);
    assert trials[0 := first][1..] == trials[1..];
    LastStudyFound(before, StudyNode(study, trials[1..], []));
    leftover := ds.ListTrials(study.name);
  }

  /** The creating half of the trial contract. */
  method CreateAndListTrials(ds: DataStore, study: Study, trials: seq<Trial>)
    returns (copies: seq<Result<Trial, DataStoreError>>, maxId: Result<nat, DataStoreError>,
             listed: Result<seq<Trial>, DataStoreError>)
    requires ds.Valid() && ds.ListStudies(study.name.ownerId) == []
    requires NumberedTrials(study.name, trials)
    modifies ds
    ensures ds.Valid() && ds.studies == old(ds.studies) + [StudyNode(study, trials, [])]
    ensures |copies| == |trials| && forall i :: 0 <= i < |trials| ==> copies[i] == Ok(trials[i])
    ensures maxId == Ok(|trials|)
    ensures listed == Ok(trials)
  {
    ghost var before := ds.studies;
    CreateFirstStudy(ds, study);
    copies := CreateTrials(ds, trials);
    assert ds.studies == before + [StudyNode(study, trials, [])];
    LastStudyFound(before, StudyNode(study, trials, []));
    MaxOfConsecutive(TrialIds(trials));
    maxId := ds.MaxTrialId(study.name);
    listed := ds.ListTrials(study.name);
  }

  /** Updating the first trial of the last study, which holds the given trials. */
  method UpdateFirstTrial(ds: DataStore, ghost before: seq<StudyNode>, study: Study, trials: seq<Trial>, first: Trial)
    returns (updated: Result<Trial, DataStoreError>)
    requires |trials| > 0 && first.name == trials[0].name
    requires ds.Valid() && ds.studies == before + [StudyNode(study, trials, [])]
    modifies ds
    ensures ds.Valid() && ds.studies == before + [StudyNode(study, trials[0 := first], [])]
    ensures updated == Ok(first)
  {
    var k := |ds.studies| - 1;
    LastStudyFound(before, StudyNode(study, trials, []));
    assert NodeValid(ds.studies[k]);
    FindUnique(trials, TrialKey, 0);
    ReplaceTrial(ds, k, 0, first);
    updated := ds.GetTrial(first.name);
  }

  /** Deleting the first trial of the last study, which holds the given trials. */
  method DeleteFirstTrial(ds: DataStore, ghost before: seq<StudyNode>, study: Study, trials: seq<Trial>)
    requires |trials| > 0
    requires ds.Valid() && ds.studies == before + [StudyNode(study, trials, [])]
    modifies ds
    ensures ds.Valid() && ds.studies == before + [StudyNode(study, trials[1..], [])]
  {
    var k := |ds.studies| - 1;
    LastStudyFound(before, StudyNode(study, trials, []));
    assert NodeValid(ds.studies[k]);
    assert trials[0].name.study == study.name;
    FindUnique(trials, TrialKey, 0);
    RemoveTrial(ds, k, 0, trials[0].name);
    assert RemoveAt(trials, 0) == trials[1..];
  }

  /**
   * The suggestion-operation contract: with operations numbered 1..n for one client,
   * the largest number is n, they list in creation order, number 1 is the first, and
   * an update reads back.
   */
  method SuggestOpAPI(ds: DataStore, study: Study, clientId: string, ops: seq<SuggestionOperation>, typeUrl: string)
    returns (maxNumber: nat, listed: seq<SuggestionOperation>,
             output: Result<SuggestionOperation, DataStoreError>, updated: Result<SuggestionOperation, DataStoreError>)
    requires ds.Valid() && ds.ListStudies(study.name.ownerId) == []
    requires ds.ListSuggestionOperations(study.name.ownerId, clientId) == []
    requires |ops| > 0
    requires forall i :: 0 <= i < |ops| ==> ops[i].name == SuggestionOperationResource(study.name.ownerId, clientId, i + 1)
    modifies ds
    ensures maxNumber == |ops|
    ensures listed == ops
    ensures output == Ok(ops[0])
    ensures updated == Ok(ops[0].(typeUrl := typeUrl))
  {
    var owner := study.name.ownerId;
    CreateFirstStudy(ds, study);
    ghost var before := ds.suggestionOps;
    var first := |ds.suggestionOps|;
    CreateSuggestionOperations(ds, owner, clientId, ops);
    maxNumber, listed := ListNewSuggestionOperations(ds, before, owner, clientId, ops);
    output, updated := UpdateFirstSuggestionOperation(ds, before, ops, typeUrl);
  }

  /** After the operations were appended for a client that had none, they are listed in order, the last numbered highest. */
  method ListNewSuggestionOperations(ds: DataStore, ghost before: seq<SuggestionOperation>,
                                     owner: string, clientId: string, ops: seq<SuggestionOperation>)
    returns (maxNumber: nat, listed: seq<SuggestionOperation>)
    requires ds.suggestionOps == before + ops && OperationsOf(before, owner, clientId) == []
    requires forall i :: 0 <= i < |ops| ==> ops[i].name == SuggestionOperationResource(owner, clientId, i + 1)
    ensures maxNumber == |ops|
    ensures listed == ops
  {
    OperationsOfAppend(before, ops, owner, clientId);
    OperationsOfAll(ops, owner, clientId);
    listed := ds.ListSuggestionOperations(owner, clientId);
    MaxOfConsecutive(OperationNumbers(ops));
    maxNumber := ds.MaxSuggestionOperationNumber(owner, clientId);
  }

  /**
   * Creates the operations one after the other, for an owner and client that have
   * none yet; they are appended in order.
   */
  method CreateSuggestionOperations(ds: DataStore, owner: string, clientId: string, ops: seq<SuggestionOperation>)
    requires ds.Valid() && OperationsOf(ds.suggestionOps, owner, clientId) == []
    requires forall i :: 0 <= i < |ops| ==> ops[i].name == SuggestionOperationResource(owner, clientId, i + 1)
    modifies ds
    ensures ds.Valid() && ds.studies == old(ds.studies)
    ensures ds.suggestionOps == old(ds.suggestionOps) + ops
  {
    ghost var before := ds.suggestionOps;
    assert forall op :: op in before ==> op.name.ownerId != owner || op.name.clientId != clientId;
    for i := 0 to |ops|
      invariant ds.Valid() && ds.studies == old(ds.studies)
      invariant ds.suggestionOps == before + ops[..i]
    {
      CreateNextSuggestionOperation(ds, before, ops, i);
    }
    assert ops[..|ops|] == ops;
  }

  /** The (i+1)-th operation is created after those of other clients and the first i. */
  method CreateNextSuggestionOperation(ds: DataStore, ghost before: seq<SuggestionOperation>,
                                       ops: seq<SuggestionOperation>, i: nat)
    requires i < |ops| && |ops| > 0
    requires forall j :: 0 <= j < |ops| ==>
               ops[j].name == SuggestionOperationResource(ops[0].name.ownerId, ops[0].name.clientId, j + 1)
    requires forall op :: op in before ==> op.name.ownerId != ops[0].name.ownerId || op.name.clientId != ops[0].name.clientId
    requires ds.Valid() && ds.suggestionOps == before + ops[..i]
    modifies ds
    ensures ds.Valid() && ds.studies == old(ds.studies)
    ensures ds.suggestionOps == before + ops[..i + 1]
  {
    assert Find(ds.suggestionOps, SuggestionKey, ops[i].name).None? by {
      forall j | 0 <= j < |ds.suggestionOps| ensures SuggestionKey(ds.suggestionOps[j]) != ops[i].name {
        if j >= |before| {
          assert ds.suggestionOps[j] == ops[j - |before|];
        } else {
          assert ds.suggestionOps[j] in before;
        }
      }
    }
    AddSuggestionOperation(ds, ops[i]);
    assert ops[..i] + [ops[i]] == ops[..i + 1];
  }

  /** Reading operation number 1 back and updating it. */
  method UpdateFirstSuggestionOperation(ds: DataStore, ghost before: seq<SuggestionOperation>,
                                        ops: seq<SuggestionOperation>, typeUrl: string)
    returns (output: Result<SuggestionOperation, DataStoreError>, updated: Result<SuggestionOperation, DataStoreError>)
    requires |ops| > 0 && ops[0].name.operationNumber == 1
    requires ds.Valid() && ds.suggestionOps == before + ops
    modifies ds
    ensures output == Ok(ops[0])
    ensures updated == Ok(ops[0].(typeUrl := typeUrl))
  {
    FindUnique(ds.suggestionOps, SuggestionKey, |before|);
    output := ds.GetSuggestionOperation(ops[0].name);
    var changed := ops[0].(typeUrl := typeUrl);
    ReplaceSuggestionOperation(ds, |ds.suggestionOps| - |ops|, changed);
    updated := ds.GetSuggestionOperation(changed.name);
  }

  /**
   * The early-stopping contract: the operation of trial 1 reads back as the first one
   * created, and an update reads back.
   */
  method EarlyStoppingAPI(ds: DataStore, study: Study, trials: seq<Trial>, ops: seq<EarlyStoppingOperation>,
                          message: string)
    returns (output: Result<EarlyStoppingOperation, DataStoreError>,
             updated: Result<EarlyStoppingOperation, DataStoreError>)
    requires ds.Valid() && ds.ListStudies(study.name.ownerId) == []
    requires NumberedTrials(study.name, trials)
    requires |ops| > 0
    requires forall i :: 0 <= i < |ops| ==> ops[i].name == EarlyStoppingOperationResource(study.name, i + 1)
    modifies ds
    ensures output == Ok(ops[0])
    ensures updated == Ok(ops[0].(failureMessage := message))
  {
    ghost var before := ds.studies;
    CreateFirstStudy(ds, study);
    var copies := CreateTrials(ds, trials);
    assert ds.studies == before + [StudyNode(study, trials, [])];
    CreateEarlyStoppingOperations(ds, before, StudyNode(study, trials, []), ops);
    output, updated := UpdateFirstEarlyStoppingOperation(ds, before, StudyNode(study, trials, ops), message);
  }

  /** Creates the operations one after the other under the last study, which has none yet. */
  method CreateEarlyStoppingOperations(ds: DataStore, ghost before: seq<StudyNode>, node: StudyNode,
                                       ops: seq<EarlyStoppingOperation>)
    requires node.earlyStoppingOps == []
    requires forall i :: 0 <= i < |ops| ==> ops[i].name == EarlyStoppingOperationResource(node.study.name, i + 1)
    requires ds.Valid() && ds.studies == before + [node]
    modifies ds
    ensures ds.Valid() && ds.studies == before + [node.(earlyStoppingOps := ops)]
  {
    assert ds.studies == before + [node.(earlyStoppingOps := ops[..0])];
    for i := 0 to |ops|
      invariant ds.Valid()
      invariant ds.studies == before + [node.(earlyStoppingOps := ops[..i])]
    {
      CreateNextEarlyStoppingOperation(ds, before, node, ops, i);
    }
    assert ops[..|ops|] == ops;
  }

  /** The (i+1)-th early-stopping operation of the last study is created. */
  method CreateNextEarlyStoppingOperation(ds: DataStore, ghost before: seq<StudyNode>, node: StudyNode,
                                          ops: seq<EarlyStoppingOperation>, i: nat)
    requires i < |ops|
    requires forall j :: 0 <= j < |ops| ==> ops[j].name == EarlyStoppingOperationResource(node.study.name, j + 1)
    requires ds.Valid() && ds.studies == before + [node.(earlyStoppingOps := ops[..i])]
    modifies ds
    ensures ds.Valid() && ds.studies == before + [node.(earlyStoppingOps := ops[..i + 1])]
  {
    LastStudyFound(before, node.(earlyStoppingOps := ops[..i]));
    assert forall j :: 0 <= j < i ==> EarlyStoppingKey(ops[..i][j]) == j + 1;
    AddEarlyStoppingOperation(ds, |ds.studies| - 1, ops[i]);
    assert ops[..i] + [ops[i]] == ops[..i + 1];
  }

  /** Reading the first early-stopping operation of the last study back and updating it. */
  method UpdateFirstEarlyStoppingOperation(ds: DataStore, ghost before: seq<StudyNode>, node: StudyNode, message: string)
    returns (output: Result<EarlyStoppingOperation, DataStoreError>,
             updated: Result<EarlyStoppingOperation, DataStoreError>)
    requires |node.earlyStoppingOps| > 0
    requires ds.Valid() && ds.studies == before + [node]
    modifies ds
    ensures output == Ok(node.earlyStoppingOps[0])
    ensures updated == Ok(node.earlyStoppingOps[0].(failureMessage := message))
  {
    var k := |ds.studies| - 1;
    var op := node.earlyStoppingOps[0];
    LastStudyFound(before, node);
    assert NodeValid(ds.studies[k]);
    FindUnique(node.earlyStoppingOps, EarlyStoppingKey, 0);
    output := ds.GetEarlyStoppingOperation(op.name);
    var changed := op.(failureMessage := message);
    ReplaceEarlyStoppingOperation(ds, k, 0, changed);
    updated := ds.GetEarlyStoppingOperation(changed.name);
  }

  /**
   * The metadata contract: one study entry and one entry for trial 1 end up as the
   * study spec's metadata and as trial 1's metadata.
   */
  method UpdateMetadataAPI(ds: DataStore, study: Study, trials: seq<Trial>)
    returns (studyMetadata: seq<KeyValue>, trial: Result<Trial, DataStoreError>)
    requires ds.Valid() && ds.ListStudies(study.name.ownerId) == []
    requires study.studySpec.metadata == []
    requires |trials| > 0 && NumberedTrials(study.name, trials) && trials[0].metadata == []
    modifies ds
    ensures studyMetadata == [KeyValue("a", "b", "C")]
    ensures trial.Ok? && trial.value.name.trialId == 1 && trial.value.metadata == [KeyValue("d", "e", "F")]
  {
    ghost var before := ds.studies;
    CreateFirstStudy(ds, study);
    var copies := CreateTrials(ds, trials);
    assert ds.studies == before + [StudyNode(study, trials, [])];
    studyMetadata, trial := UpdateLastStudyMetadata(ds, before, StudyNode(study, trials, []),
                                                    KeyValue("a", "b", "C"), KeyValue("d", "e", "F"));
  }

  /** An entry for trial 1 attaches to the first trial, when that is trial 1. */
  lemma AttachToFirstTrial(trials: seq<Trial>, kv: KeyValue)
    requires |trials| > 0 && TrialKey(trials[0]) == 1
    ensures AttachTrialMetadata(trials, [KeyValuePlus(1, kv)]) == Some(trials[0 := trials[0].(metadata := trials[0].metadata + [kv])])
  {
    var entries := [KeyValuePlus(1, kv)];
    assert Find(trials, TrialKey, entries[0].trialId) == Some(0);
    assert entries[1..] == [];
  }

  /** One study entry and one entry for trial 1, on the last study, whose first trial is trial 1. */
  method UpdateLastStudyMetadata(ds: DataStore, ghost before: seq<StudyNode>, node: StudyNode,
                                 studyEntry: KeyValue, trialEntry: KeyValue)
    returns (studyMetadata: seq<KeyValue>, trial: Result<Trial, DataStoreError>)
    requires |node.trials| > 0 && TrialKey(node.trials[0]) == 1
    requires ds.Valid() && ds.studies == before + [node]
    modifies ds
    ensures studyMetadata == node.study.studySpec.metadata + [studyEntry]
    ensures trial == Ok(node.trials[0].(metadata := node.trials[0].metadata + [trialEntry]))
  {
    var first := node.trials[0];
    LastStudyFound(before, node);
    AttachToFirstTrial(node.trials, trialEntry);
    var outcome := ds.UpdateMetadata(node.study.name, [studyEntry], [KeyValuePlus(1, trialEntry)]);
    ghost var attached := node.trials[0 := first.(metadata := first.metadata + [trialEntry])];
    assert ds.studies[|before|].trials == attached;
    assert NodeValid(ds.studies[|before|]);
    FindUnique(ds.studies, StudyKey, |before|);
    var loaded := ds.LoadStudy(node.study.name);
    studyMetadata := loaded.value.studySpec.metadata;
    FindUnique(attached, TrialKey, 0);
    trial := ds.GetTrial(first.name);
  }
}
