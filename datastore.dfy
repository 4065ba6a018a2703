/**
 * An in-memory datastore of studies, trials, suggestion operations, early-stopping
 * operations and metadata, keyed by resource names.
 *
 * Stored records are values (datatypes), so whatever a caller later does to its own
 * copy of a record cannot reach the stored one: the pass-by-value checks hold by
 * construction. Each keyed collection keeps insertion order, as the dictionaries of an
 * in-memory store do, and resource names are kept structured instead of formatted as
 * strings.
 */
module DataStores {
  import opened Wrappers

  // ---------------------------------------------------------------------------------
  // Resource names and records
  // ---------------------------------------------------------------------------------

  /** owners/{ownerId}/studies/{studyId} */
  datatype StudyResource = StudyResource(ownerId: string, studyId: string)

  /** {study}/trials/{trialId} */
  datatype TrialResource = TrialResource(study: StudyResource, trialId: nat)

  /** owners/{ownerId}/clients/{clientId}/operations/{operationNumber} */
  datatype SuggestionOperationResource =
    SuggestionOperationResource(ownerId: string, clientId: string, operationNumber: nat)

  /** The early-stopping operation of trial {trialId} of {study}. */
  datatype EarlyStoppingOperationResource = EarlyStoppingOperationResource(study: StudyResource, trialId: nat)

  datatype KeyValue = KeyValue(key: string, ns: string, value: string)

  /** A metadata entry addressed to one trial of a study. */
  datatype KeyValuePlus = KeyValuePlus(trialId: nat, kv: KeyValue)

  datatype StudySpec = StudySpec(metadata: seq<KeyValue>)

  datatype Study = Study(name: StudyResource, displayName: string, studySpec: StudySpec, inactiveReason: string)

  datatype Trial = Trial(name: TrialResource, infeasibleReason: string, metadata: seq<KeyValue>)

  datatype SuggestionOperation = SuggestionOperation(name: SuggestionOperationResource, typeUrl: string, done: bool)

  datatype EarlyStoppingOperation = EarlyStoppingOperation(name: EarlyStoppingOperationResource, failureMessage: string)

  datatype DataStoreError = NotFound | AlreadyExists

  /** A study with the trials and early-stopping operations stored under it. */
  datatype StudyNode = StudyNode(study: Study, trials: seq<Trial>, earlyStoppingOps: seq<EarlyStoppingOperation>)

  function StudyKey(n: StudyNode): StudyResource { n.study.name }
  function TrialKey(t: Trial): nat { t.name.trialId }
  function SuggestionKey(op: SuggestionOperation): SuggestionOperationResource { op.name }
  function EarlyStoppingKey(op: EarlyStoppingOperation): nat { op.name.trialId }

  // ---------------------------------------------------------------------------------
  // Ordered keyed collections
  // ---------------------------------------------------------------------------------

  /** The position of the first item whose key is k, if any. */
  function Find<T, K(==)>(items: seq<T>, key: T -> K, k: K): (r: Option<nat>)
    ensures r.Some? ==> r.value < |items| && key(items[r.value]) == k
    ensures r.Some? ==> forall i :: 0 <= i < r.value ==> key(items[i]) != k
    ensures r.None? <==> forall i :: 0 <= i < |items| ==> key(items[i]) != k
  {
    if |items| == 0 then None
    else if key(items[0]) == k then Some(0)
    else match Find(items[1..], key, k)
      case None => None
      case Some(i) => Some(i + 1)
  }

  /** No two items share a key. */
  ghost predicate Unique<T, K>(items: seq<T>, key: T -> K)
  {
    forall i, j :: 0 <= i < j < |items| ==> key(items[i]) != key(items[j])
  }

  /** With unique keys, the item with key k is found at its own position. */
  lemma FindUnique<T, K>(items: seq<T>, key: T -> K, i: nat)
    requires Unique(items, key) && i < |items|
    ensures Find(items, key, key(items[i])) == Some(i)
  {
  }

  /** Appending an item whose key is not taken keeps the keys unique, and the item is found last. */
  lemma AppendUnique<T, K>(items: seq<T>, key: T -> K, x: T)
    requires Unique(items, key) && Find(items, key, key(x)).None?
    ensures Unique(items + [x], key)
    ensures Find(items + [x], key, key(x)) == Some(|items|)
  {
    FindUnique(items + [x], key, |items|);
  }

  /** Two collections with the same keys, position by position, find every key at the same position. */
  lemma {:induction false} FindSameKeys<T, K>(a: seq<T>, b: seq<T>, key: T -> K)
    requires |a| == |b| && forall j :: 0 <= j < |a| ==> key(a[j]) == key(b[j])
    ensures forall k :: Find(a, key, k) == Find(b, key, k)
  {
    if |a| > 0 {
      FindSameKeys(a[1..], b[1..], key);
    }
  }

  /** The items without the one at position i, the others in order. */
  function RemoveAt<T>(items: seq<T>, i: nat): (r: seq<T>)
    requires i < |items|
    ensures |r| == |items| - 1
    ensures forall j :: 0 <= j < i ==> r[j] == items[j]
    ensures forall j :: i <= j < |r| ==> r[j] == items[j + 1]
  {
    items[..i] + items[i + 1..]
  }

  /** Removing an item keeps the keys unique. */
  lemma RemoveAtUnique<T, K>(items: seq<T>, key: T -> K, i: nat)
    requires Unique(items, key) && i < |items|
    ensures Unique(RemoveAt(items, i), key)
  {
    var r := RemoveAt(items, i);
    forall a, b | 0 <= a < b < |r| ensures key(r[a]) != key(r[b]) {
      var a' := if a < i then a else a + 1;
      var b' := if b < i then b else b + 1;
      assert r[a] == items[a'] && r[b] == items[b'];
    }
  }

  /** The largest of some natural numbers, 0 for none. */
  function MaxOf(s: seq<nat>): (m: nat)
    ensures forall i :: 0 <= i < |s| ==> s[i] <= m
    ensures |s| > 0 ==> exists i :: 0 <= i < |s| && s[i] == m
    ensures |s| == 0 ==> m == 0
  {
    if |s| == 0 then 0
    else
      var rest := MaxOf(s[1..]);
      assert forall i :: 1 <= i < |s| ==> s[i] == s[1..][i - 1];
      if s[0] >= rest then s[0] else rest
  }

  /** When the entries are 1, 2, ..., n, the largest is n. */
  lemma MaxOfConsecutive(s: seq<nat>)
    requires forall i :: 0 <= i < |s| ==> s[i] == i + 1
    ensures MaxOf(s) == |s|
  {
    if |s| > 0 {
      var i :| 0 <= i < |s| && s[i] == MaxOf(s);
      assert s[|s| - 1] == |s|;
    }
  }

  function TrialIds(trials: seq<Trial>): (ids: seq<nat>)
    ensures |ids| == |trials| && forall i :: 0 <= i < |trials| ==> ids[i] == trials[i].name.trialId
  {
    seq(|trials|, i requires 0 <= i < |trials| => trials[i].name.trialId)
  }

  function OperationNumbers(ops: seq<SuggestionOperation>): (ns: seq<nat>)
    ensures |ns| == |ops| && forall i :: 0 <= i < |ops| ==> ns[i] == ops[i].name.operationNumber
  {
    seq(|ops|, i requires 0 <= i < |ops| => ops[i].name.operationNumber)
  }

  /** The studies of one owner, in creation order. */
  function StudiesOf(nodes: seq<StudyNode>, ownerId: string): (r: seq<Study>)
    ensures forall s :: s in r <==> exists i :: 0 <= i < |nodes| && nodes[i].study == s && s.name.ownerId == ownerId
  {
    if |nodes| == 0 then []
    else
      var rest := StudiesOf(nodes[1..], ownerId);
      assert forall i :: 1 <= i < |nodes| ==> nodes[i] == nodes[1..][i - 1];
      if nodes[0].study.name.ownerId == ownerId then [nodes[0].study] + rest else rest
  }

  lemma {:induction false} StudiesOfAppend(a: seq<StudyNode>, b: seq<StudyNode>, ownerId: string)
    ensures StudiesOf(a + b, ownerId) == StudiesOf(a, ownerId) + StudiesOf(b, ownerId)
  {
    if |a| > 0 {
      assert (a + b)[1..] == a[1..] + b;
      StudiesOfAppend(a[1..], b, ownerId);
    } else {
      assert a + b == b;
    }
  }

  /** The suggestion operations of one owner and client, in creation order. */
  function OperationsOf(ops: seq<SuggestionOperation>, ownerId: string, clientId: string): (r: seq<SuggestionOperation>)
    ensures forall op :: op in r <==> op in ops && op.name.ownerId == ownerId && op.name.clientId == clientId
  {
    if |ops| == 0 then []
    else
      var rest := OperationsOf(ops[1..], ownerId, clientId);
      assert forall op :: op in ops <==> op == ops[0] || op in ops[1..];
      if ops[0].name.ownerId == ownerId && ops[0].name.clientId == clientId then [ops[0]] + rest else rest
  }

  lemma {:induction false} OperationsOfAppend(a: seq<SuggestionOperation>, b: seq<SuggestionOperation>,
                                              ownerId: string, clientId: string)
    ensures OperationsOf(a + b, ownerId, clientId) == OperationsOf(a, ownerId, clientId) + OperationsOf(b, ownerId, clientId)
  {
    if |a| > 0 {
      assert (a + b)[1..] == a[1..] + b;
      OperationsOfAppend(a[1..], b, ownerId, clientId);
    } else {
      assert a + b == b;
    }
  }

  /** Every item of `ops` belongs to the given owner and client. */
  lemma {:induction false} OperationsOfAll(ops: seq<SuggestionOperation>, ownerId: string, clientId: string)
    requires forall i :: 0 <= i < |ops| ==> ops[i].name.ownerId == ownerId && ops[i].name.clientId == clientId
    ensures OperationsOf(ops, ownerId, clientId) == ops
  {
    if |ops| > 0 {
      OperationsOfAll(ops[1..], ownerId, clientId);
      assert [ops[0]] + ops[1..] == ops;
    }
  }

  /** Appends each metadata entry to the trial it names; None when a named trial is missing. */
  function AttachTrialMetadata(trials: seq<Trial>, entries: seq<KeyValuePlus>): (r: Option<seq<Trial>>)
    ensures r.Some? ==> |r.value| == |trials|
    ensures r.Some? ==> forall i :: 0 <= i < |trials| ==> r.value[i].name == trials[i].name
    ensures r.None? <==> exists e :: 0 <= e < |entries| && Find(trials, TrialKey, entries[e].trialId).None?
    decreases |entries|
  {
    if |entries| == 0 then Some(trials)
    else match Find(trials, TrialKey, entries[0].trialId)
      case None => None
      case Some(i) =>
        var updated := trials[i := trials[i].(metadata := trials[i].metadata + [entries[0].kv])];
        FindSameKeys(updated, trials, TrialKey);
        var rest := AttachTrialMetadata(updated, entries[1..]);
        MissingEntryOfTail(trials, updated, entries);
        rest
  }

  /** With the first entry found, an entry is missing iff one of the remaining entries is missing from the updated trials. */
  lemma MissingEntryOfTail(trials: seq<Trial>, updated: seq<Trial>, entries: seq<KeyValuePlus>)
    requires |entries| > 0 && Find(trials, TrialKey, entries[0].trialId).Some?
    requires forall k :: Find(updated, TrialKey, k) == Find(trials, TrialKey, k)
    ensures (exists e :: 0 <= e < |entries| && Find(trials, TrialKey, entries[e].trialId).None?)
        <==> (exists e :: 0 <= e < |entries[1..]| && Find(updated, TrialKey, entries[1..][e].trialId).None?)
  {
    if exists e :: 0 <= e < |entries| && Find(trials, TrialKey, entries[e].trialId).None? {
      var e :| 0 <= e < |entries| && Find(trials, TrialKey, entries[e].trialId).None?;
      assert entries[1..][e - 1] == entries[e];
    }
    if exists e :: 0 <= e < |entries[1..]| && Find(updated, TrialKey, entries[1..][e].trialId).None? {
      var e :| 0 <= e < |entries[1..]| && Find(updated, TrialKey, entries[1..][e].trialId).None?;
      assert entries[e + 1] == entries[1..][e];
    }
  }

  // ---------------------------------------------------------------------------------
  // The store
  // ---------------------------------------------------------------------------------

  ghost predicate NodeValid(n: StudyNode)
  {
    && Unique(n.trials, TrialKey)
    && (forall i :: 0 <= i < |n.trials| ==> n.trials[i].name.study == n.study.name)
    && Unique(n.earlyStoppingOps, EarlyStoppingKey)
    && (forall i :: 0 <= i < |n.earlyStoppingOps| ==> n.earlyStoppingOps[i].name.study == n.study.name)
  }

  /**
   * Replacing a study's node by a node of the same study keeps the study keys unique,
   * and the study is still found at the same position.
   */
  lemma ReplaceNode(studies: seq<StudyNode>, k: nat, node: StudyNode)
    requires Unique(studies, StudyKey)
    requires k < |studies| && StudyKey(node) == StudyKey(studies[k]) && NodeValid(node)
    ensures Unique(studies[k := node], StudyKey)
    ensures Find(studies[k := node], StudyKey, StudyKey(node)) == Some(k)
  {
    var updated := studies[k := node];
    assert forall i :: 0 <= i < |updated| ==> StudyKey(updated[i]) == StudyKey(studies[i]);
    FindUnique(updated, StudyKey, k);
  }

  class DataStore {
    /** The studies in creation order, each with its trials and early-stopping operations. */
    var studies: seq<StudyNode>
    /** The suggestion operations in creation order. */
    var suggestionOps: seq<SuggestionOperation>

    ghost predicate Valid()
      reads this
    {
      && Unique(studies, StudyKey)
      && (forall i :: 0 <= i < |studies| ==> NodeValid(studies[i]))
      && Unique(suggestionOps, SuggestionKey)
    }

    constructor ()
      ensures Valid() && studies == [] && suggestionOps == []
    {
      studies := [];
      suggestionOps := [];
    }

    // --- studies ---

    method CreateStudy(study: Study) returns (outcome: Outcome<DataStoreError>)
      requires Valid()
      modifies this
      ensures Valid() && suggestionOps == old(suggestionOps)
      ensures Find(old(studies), StudyKey, study.name).Some? ==> outcome == Fail(AlreadyExists) && studies == old(studies)
      ensures Find(old(studies), StudyKey, study.name).None? ==>
                outcome == Pass && studies == old(studies) + [StudyNode(study, [], [])]
      ensures outcome == Pass ==> LoadStudy(study.name) == Ok(study)
    {
      if Find(studies, StudyKey, study.name).Some? {
        return Fail(AlreadyExists);
      }
      AppendUnique(studies, StudyKey, StudyNode(study, [], []));
      studies := studies + [StudyNode(study, [], [])];
      outcome := Pass;
    }

    function LoadStudy(name: StudyResource): (r: Result<Study, DataStoreError>)
      reads this
      ensures r.Ok? <==> exists i :: 0 <= i < |studies| && studies[i].study.name == name
      ensures r.Ok? ==> r.value.name == name && exists i :: 0 <= i < |studies| && studies[i].study == r.value
      ensures r.Err? ==> r.error == NotFound
    {
      match Find(studies, StudyKey, name)
      case None => Err(NotFound)
      case Some(i) => Ok(studies[i].study)
    }

    /** The owner's studies, in creation order. */
    function ListStudies(ownerId: string): (r: seq<Study>)
      reads this
      ensures forall s :: s in r <==> exists i :: 0 <= i < |studies| && studies[i].study == s && s.name.ownerId == ownerId
    {
      StudiesOf(studies, ownerId)
    }

    /** Deletes a study together with its trials and early-stopping operations. */
    method DeleteStudy(name: StudyResource) returns (outcome: Outcome<DataStoreError>)
      requires Valid()
      modifies this
      ensures Valid() && suggestionOps == old(suggestionOps)
      ensures Find(old(studies), StudyKey, name).None? ==> outcome == Fail(NotFound) && studies == old(studies)
      ensures Find(old(studies), StudyKey, name).Some? ==>
                outcome == Pass && studies == RemoveAt(old(studies), Find(old(studies), StudyKey, name).value)
      ensures LoadStudy(name).Err?
    {
      var k := Find(studies, StudyKey, name);
      if k.None? {
        return Fail(NotFound);
      }
      RemoveAtUnique(studies, StudyKey, k.value);
      studies := RemoveAt(studies, k.value);
      outcome := Pass;
      forall i | 0 <= i < |studies| ensures studies[i].study.name != name {
        var i' := if i < k.value then i else i + 1;
        assert studies[i] == old(studies)[i'];
      }
    }

    // --- trials ---

    method CreateTrial(trial: Trial) returns (outcome: Outcome<DataStoreError>)
      requires Valid()
      modifies this
      ensures Valid() && suggestionOps == old(suggestionOps)
      ensures var k := Find(old(studies), StudyKey, trial.name.study);
              if k.None? then outcome == Fail(NotFound) && studies == old(studies)
              else if Find(old(studies)[k.value].trials, TrialKey, trial.name.trialId).Some? then
                outcome == Fail(AlreadyExists) && studies == old(studies)
              else
                outcome == Pass
                && studies == old(studies)[k.value := old(studies)[k.value].(trials := old(studies)[k.value].trials + [trial])]
      ensures outcome == Pass ==> GetTrial(trial.name) == Ok(trial)
    {
      var k := Find(studies, StudyKey, trial.name.study);
      if k.None? {
        return Fail(NotFound);
      }
      var node := studies[k.value];
      if Find(node.trials, TrialKey, trial.name.trialId).Some? {
        return Fail(AlreadyExists);
      }
      var node' := node.(trials := node.trials + [trial]);
      assert NodeValid(node');
      ReplaceNode(studies, k.value, node');
      studies := studies[k.value := node'];
      outcome := Pass;
      FindUnique(node'.trials, TrialKey, |node'.trials| - 1);
    }

    function GetTrial(name: TrialResource): (r: Result<Trial, DataStoreError>)
      reads this
      ensures r.Ok? ==> r.value.name.trialId == name.trialId
                        && exists i :: 0 <= i < |studies| && studies[i].study.name == name.study && r.value in studies[i].trials
      ensures r.Err? ==> r.error == NotFound
      ensures Find(studies, StudyKey, name.study).Some? &&
              Find(studies[Find(studies, StudyKey, name.study).value].trials, TrialKey, name.trialId).Some?
              ==> r.Ok?
    {
      match Find(studies, StudyKey, name.study)
      case None => Err(NotFound)
      case Some(k) =>
        match Find(studies[k].trials, TrialKey, name.trialId)
        case None => Err(NotFound)
        case Some(i) => Ok(studies[k].trials[i])
    }

    /** The study's trials, in creation order. */
    function ListTrials(study: StudyResource): (r: Result<seq<Trial>, DataStoreError>)
      reads this
      ensures r.Ok? <==> Find(studies, StudyKey, study).Some?
      ensures r.Ok? ==> exists i :: 0 <= i < |studies| && studies[i].study.name == study && r.value == studies[i].trials
    {
      match Find(studies, StudyKey, study)
      case None => Err(NotFound)
      case Some(k) => Ok(studies[k].trials)
    }

    /** The largest trial id of the study, 0 when it has no trials. */
    function MaxTrialId(study: StudyResource): (r: Result<nat, DataStoreError>)
      reads this
      ensures r.Ok? <==> Find(studies, StudyKey, study).Some?
      ensures r.Ok? ==> var trials := studies[Find(studies, StudyKey, study).value].trials;
                        (forall i :: 0 <= i < |trials| ==> trials[i].name.trialId <= r.value)
                        && (|trials| > 0 ==> exists i :: 0 <= i < |trials| && trials[i].name.trialId == r.value)
                        && (|trials| == 0 ==> r.value == 0)
    {
      match Find(studies, StudyKey, study)
      case None => Err(NotFound)
      case Some(k) => Ok(MaxOf(TrialIds(studies[k].trials)))
    }

    /** Replaces the stored trial of the same name. */
    method UpdateTrial(trial: Trial) returns (outcome: Outcome<DataStoreError>)
      requires Valid()
      modifies this
      ensures Valid() && suggestionOps == old(suggestionOps)
      ensures var k := Find(old(studies), StudyKey, trial.name.study);
              if k.None? then outcome == Fail(NotFound) && studies == old(studies)
              else match Find(old(studies)[k.value].trials, TrialKey, trial.name.trialId)
                case None => outcome == Fail(NotFound) && studies == old(studies)
                case Some(i) =>
                  outcome == Pass
                  && studies == old(studies)[k.value := old(studies)[k.value].(trials := old(studies)[k.value].trials[i := trial])]
      ensures outcome == Pass ==> GetTrial(trial.name) == Ok(trial)
    {
      var k := Find(studies, StudyKey, trial.name.study);
      if k.None? {
        return Fail(NotFound);
      }
      var node := studies[k.value];
      var i := Find(node.trials, TrialKey, trial.name.trialId);
      if i.None? {
        return Fail(NotFound);
      }
      var node' := node.(trials := node.trials[i.value := trial]);
      assert forall j :: 0 <= j < |node'.trials| ==> TrialKey(node'.trials[j]) == TrialKey(node.trials[j]);
      assert NodeValid(node');
      ReplaceNode(studies, k.value, node');
      studies := studies[k.value := node'];
      outcome := Pass;
      FindUnique(node'.trials, TrialKey, i.value);
    }

    /** Deletes a trial; the study's other trials keep their order. */
    method DeleteTrial(name: TrialResource) returns (outcome: Outcome<DataStoreError>)
      requires Valid()
      modifies this
      ensures Valid() && suggestionOps == old(suggestionOps)
      ensures var k := Find(old(studies), StudyKey, name.study);
              if k.None? then outcome == Fail(NotFound) && studies == old(studies)
              else match Find(old(studies)[k.value].trials, TrialKey, name.trialId)
                case None => outcome == Fail(NotFound) && studies == old(studies)
                case Some(i) =>
                  outcome == Pass
                  && studies == old(studies)[k.value := old(studies)[k.value].(trials := RemoveAt(old(studies)[k.value].trials, i))]
      ensures GetTrial(name).Err?
    {
      var k := Find(studies, StudyKey, name.study);
      if k.None? {
        return Fail(NotFound);
      }
      var node := studies[k.value];
      var i := Find(node.trials, TrialKey, name.trialId);
      if i.None? {
        return Fail(NotFound);
      }
      RemoveAtUnique(node.trials, TrialKey, i.value);
      var node' := node.(trials := RemoveAt(node.trials, i.value));
      assert NodeValid(node');
      ReplaceNode(studies, k.value, node');
      studies := studies[k.value := node'];
      outcome := Pass;
      forall j | 0 <= j < |node'.trials| ensures TrialKey(node'.trials[j]) != name.trialId {
        var j' := if j < i.value then j else j + 1;
        assert node'.trials[j] == node.trials[j'];
      }
    }

    // --- suggestion operations ---

    method CreateSuggestionOperation(op: SuggestionOperation) returns (outcome: Outcome<DataStoreError>)
      requires Valid()
      modifies this
      ensures Valid() && studies == old(studies)
      ensures Find(old(suggestionOps), SuggestionKey, op.name).Some? ==>
                outcome == Fail(AlreadyExists) && suggestionOps == old(suggestionOps)
      ensures Find(old(suggestionOps), SuggestionKey, op.name).None? ==>
                outcome == Pass && suggestionOps == old(suggestionOps) + [op]
      ensures outcome == Pass ==> GetSuggestionOperation(op.name) == Ok(op)
    {
      if Find(suggestionOps, SuggestionKey, op.name).Some? {
        return Fail(AlreadyExists);
      }
      suggestionOps := suggestionOps + [op];
      outcome := Pass;
      FindUnique(suggestionOps, SuggestionKey, |suggestionOps| - 1);
    }

    function GetSuggestionOperation(name: SuggestionOperationResource): (r: Result<SuggestionOperation, DataStoreError>)
      reads this
      ensures r.Ok? <==> exists i :: 0 <= i < |suggestionOps| && suggestionOps[i].name == name
      ensures r.Ok? ==> r.value.name == name && r.value in suggestionOps
      ensures r.Err? ==> r.error == NotFound
    {
      match Find(suggestionOps, SuggestionKey, name)
      case None => Err(NotFound)
      case Some(i) => Ok(suggestionOps[i])
    }

    /** The operations of one owner and client, in creation order. */
    function ListSuggestionOperations(ownerId: string, clientId: string): (r: seq<SuggestionOperation>)
      reads this
      ensures forall op :: op in r <==> op in suggestionOps && op.name.ownerId == ownerId && op.name.clientId == clientId
    {
      OperationsOf(suggestionOps, ownerId, clientId)
    }

    /** The largest operation number of one owner and client, 0 when there is none. */
    function MaxSuggestionOperationNumber(ownerId: string, clientId: string): (r: nat)
      reads this
      ensures forall op :: op in suggestionOps && op.name.ownerId == ownerId && op.name.clientId == clientId ==>
                op.name.operationNumber <= r
      ensures (exists op :: op in suggestionOps && op.name.ownerId == ownerId && op.name.clientId == clientId) ==>
                exists op :: op in suggestionOps && op.name.ownerId == ownerId && op.name.clientId == clientId
                             && op.name.operationNumber == r
      ensures (forall op :: op in suggestionOps ==> op.name.ownerId != ownerId || op.name.clientId != clientId) ==> r == 0
    {
      var ops := OperationsOf(suggestionOps, ownerId, clientId);
      var m := MaxOf(OperationNumbers(ops));
      assert forall op :: op in ops ==> op.name.operationNumber <= m by {
        forall op | op in ops ensures op.name.operationNumber <= m {
          var i :| 0 <= i < |ops| && ops[i] == op;
          assert OperationNumbers(ops)[i] == op.name.operationNumber;
        }
      }
      assert |ops| > 0 ==> ops[0] in ops;
      assert |ops| > 0 ==> exists op :: op in ops && op.name.operationNumber == m by {
        if |ops| > 0 {
          var i :| 0 <= i < |ops| && OperationNumbers(ops)[i] == m;
          assert ops[i] in ops;
        }
      }
      m
    }

    method UpdateSuggestionOperation(op: SuggestionOperation) returns (outcome: Outcome<DataStoreError>)
      requires Valid()
      modifies this
      ensures Valid() && studies == old(studies)
      ensures Find(old(suggestionOps), SuggestionKey, op.name).None? ==>
                outcome == Fail(NotFound) && suggestionOps == old(suggestionOps)
      ensures Find(old(suggestionOps), SuggestionKey, op.name).Some? ==>
                outcome == Pass && suggestionOps == old(suggestionOps)[Find(old(suggestionOps), SuggestionKey, op.name).value := op]
      ensures outcome == Pass ==> GetSuggestionOperation(op.name) == Ok(op)
    {
      var i := Find(suggestionOps, SuggestionKey, op.name);
      if i.None? {
        return Fail(NotFound);
      }
      suggestionOps := suggestionOps[i.value := op];
      outcome := Pass;
      assert forall j :: 0 <= j < |suggestionOps| ==> SuggestionKey(suggestionOps[j]) == SuggestionKey(old(suggestionOps)[j]);
      FindUnique(suggestionOps, SuggestionKey, i.value);
    }

    // --- early-stopping operations ---

    method CreateEarlyStoppingOperation(op: EarlyStoppingOperation) returns (outcome: Outcome<DataStoreError>)
      requires Valid()
      modifies this
      ensures Valid() && suggestionOps == old(suggestionOps)
      ensures var k := Find(old(studies), StudyKey, op.name.study);
              if k.None? then outcome == Fail(NotFound) && studies == old(studies)
              else if Find(old(studies)[k.value].earlyStoppingOps, EarlyStoppingKey, op.name.trialId).Some? then
                outcome == Fail(AlreadyExists) && studies == old(studies)
              else
                outcome == Pass
                && studies == old(studies)[k.value := old(studies)[k.value].(earlyStoppingOps := old(studies)[k.value].earlyStoppingOps + [op])]
      ensures outcome == Pass ==> GetEarlyStoppingOperation(op.name) == Ok(op)
    {
      var k := Find(studies, StudyKey, op.name.study);
      if k.None? {
        return Fail(NotFound);
      }
      var node := studies[k.value];
      if Find(node.earlyStoppingOps, EarlyStoppingKey, op.name.trialId).Some? {
        return Fail(AlreadyExists);
      }
      var node' := node.(earlyStoppingOps := node.earlyStoppingOps + [op]);
      assert NodeValid(node');
      ReplaceNode(studies, k.value, node');
      studies := studies[k.value := node'];
      outcome := Pass;
      FindUnique(node'.earlyStoppingOps, EarlyStoppingKey, |node'.earlyStoppingOps| - 1);
    }

    function GetEarlyStoppingOperation(name: EarlyStoppingOperationResource): (r: Result<EarlyStoppingOperation, DataStoreError>)
      reads this
      ensures r.Ok? ==> r.value.name.trialId == name.trialId
                        && exists i :: 0 <= i < |studies| && studies[i].study.name == name.study
                                       && r.value in studies[i].earlyStoppingOps
      ensures r.Err? ==> r.error == NotFound
      ensures Find(studies, StudyKey, name.study).Some? &&
              Find(studies[Find(studies, StudyKey, name.study).value].earlyStoppingOps, EarlyStoppingKey, name.trialId).Some?
              ==> r.Ok?
    {
      match Find(studies, StudyKey, name.study)
      case None => Err(NotFound)
      case Some(k) =>
        match Find(studies[k].earlyStoppingOps, EarlyStoppingKey, name.trialId)
        case None => Err(NotFound)
        case Some(i) => Ok(studies[k].earlyStoppingOps[i])
    }

    method UpdateEarlyStoppingOperation(op: EarlyStoppingOperation) returns (outcome: Outcome<DataStoreError>)
      requires Valid()
      modifies this
      ensures Valid() && suggestionOps == old(suggestionOps)
      ensures var k := Find(old(studies), StudyKey, op.name.study);
              if k.None? then outcome == Fail(NotFound) && studies == old(studies)
              else match Find(old(studies)[k.value].earlyStoppingOps, EarlyStoppingKey, op.name.trialId)
                case None => outcome == Fail(NotFound) && studies == old(studies)
                case Some(i) =>
                  outcome == Pass
                  && studies == old(studies)[k.value := old(studies)[k.value].(earlyStoppingOps := old(studies)[k.value].earlyStoppingOps[i := op])]
      ensures outcome == Pass ==> GetEarlyStoppingOperation(op.name) == Ok(op)
    {
      var k := Find(studies, StudyKey, op.name.study);
      if k.None? {
        return Fail(NotFound);
      }
      var node := studies[k.value];
      var i := Find(node.earlyStoppingOps, EarlyStoppingKey, op.name.trialId);
      if i.None? {
        return Fail(NotFound);
      }
      var node' := node.(earlyStoppingOps := node.earlyStoppingOps[i.value := op]);
      assert forall j :: 0 <= j < |node'.earlyStoppingOps| ==>
               EarlyStoppingKey(node'.earlyStoppingOps[j]) == EarlyStoppingKey(node.earlyStoppingOps[j]);
      assert NodeValid(node');
      ReplaceNode(studies, k.value, node');
      studies := studies[k.value := node'];
      outcome := Pass;
      FindUnique(node'.earlyStoppingOps, EarlyStoppingKey, i.value);
    }

    // --- metadata ---

    /**
     * Appends the study entries to the study spec's metadata and each trial entry to
     * the metadata of the trial it names. A missing study or trial changes nothing.
     */
    method UpdateMetadata(study: StudyResource, studyMetadata: seq<KeyValue>, trialMetadata: seq<KeyValuePlus>)
      returns (outcome: Outcome<DataStoreError>)
      requires Valid()
      modifies this
      ensures Valid() && suggestionOps == old(suggestionOps)
      ensures var k := Find(old(studies), StudyKey, study);
              if k.None? then outcome == Fail(NotFound) && studies == old(studies)
              else
                var node := old(studies)[k.value];
                match AttachTrialMetadata(node.trials, trialMetadata)
                case None => outcome == Fail(NotFound) && studies == old(studies)
                case Some(trials) =>
                  outcome == Pass
                  && studies == old(studies)[k.value := node.(study := node.study.(studySpec := StudySpec(node.study.studySpec.metadata + studyMetadata)),
                                                              trials := trials)]
    {
      var k := Find(studies, StudyKey, study);
      if k.None? {
        return Fail(NotFound);
      }
      var node := studies[k.value];
      var trials := AttachTrialMetadata(node.trials, trialMetadata);
      if trials.None? {
        return Fail(NotFound);
      }
      var node' := node.(study := node.study.(studySpec := StudySpec(node.study.studySpec.metadata + studyMetadata)),
                         trials := trials.value);
      assert forall j :: 0 <= j < |node'.trials| ==> TrialKey(node'.trials[j]) == TrialKey(node.trials[j]);
      assert NodeValid(node');
      ReplaceNode(studies, k.value, node');
      studies := studies[k.value := node'];
      outcome := Pass;
    }
  }
}
