/**
 * The Pythia service: the algorithm registry that turns an algorithm name into a policy,
 * and the service object that holds a handle on the Vizier service, set at most once,
 * and answers `Suggest` and `EarlyStop` requests by delegating to a policy.
 *
 * Policies, designers and the Vizier service are opaque here: a policy is described by
 * its kind and the arguments it is built from, and what a policy computes is a
 * function parameter of the request handlers.
 */
module PythiaServer {
  import opened Wrappers
  import opened Pyvizier

  /** A handle on the Vizier service: a stub for an endpoint, or a local servicer. */
  datatype VizierService = Stub(endpoint: string) | LocalServicer(id: nat)

  /** What a policy uses to reach the study: its guid and the service, if any. */
  datatype PolicySupporter = ServicePolicySupporter(studyGuid: string, service: Option<VizierService>)

  /** The factories a partially serializable designer policy builds its designer with. */
  datatype DesignerFactory = QuasiRandomFromProblem | GridSearchFromProblem | CreateNsga2 | CmaesDesigner

  /** The designer classes a (non-serializable) designer policy instantiates. */
  datatype DesignerClass = EmukitDesigner | BocsDesigner | HarmonicaDesigner

  datatype Policy =
    | RandomPolicy(supporter: PolicySupporter)
    | PartiallySerializableDesignerPolicy(problem: ProblemStatement, supporter: PolicySupporter, factory: DesignerFactory)
    | DesignerPolicy(supporter: PolicySupporter, designer: DesignerClass)

  /**
   * The errors the service raises: a `ValueError` with its message and, for the
   * set-once rule, the service already held; a `RuntimeError` with its message; and the
   * error a policy raises itself, with its text.
   */
  datatype PythiaError =
    | ValueError(message: string, heldService: Option<VizierService>)
    | RuntimeError(message: string)
    | PolicyError(text: string)

  // ---------------------------------------------------------------------------------
  // The algorithm registry
  // ---------------------------------------------------------------------------------

  /** The kind of policy an algorithm name stands for, without its arguments. */
  datatype PolicyKind = Random | PartiallySerializable(factory: DesignerFactory) | Designer(designer: DesignerClass)

  function KindOf(p: Policy): PolicyKind
  {
    match p
    case RandomPolicy(_) => Random
    case PartiallySerializableDesignerPolicy(_, _, f) => PartiallySerializable(f)
    case DesignerPolicy(_, d) => Designer(d)
  }

  /** The registry as a table: every registered algorithm name and the policy it selects. */
  const Registry: map<string, PolicyKind> := map[
    "ALGORITHM_UNSPECIFIED" := Random,
    "RANDOM_SEARCH" := Random,
    "QUASI_RANDOM_SEARCH" := PartiallySerializable(QuasiRandomFromProblem),
    "GRID_SEARCH" := PartiallySerializable(GridSearchFromProblem),
    "NSGA2" := PartiallySerializable(CreateNsga2),
    "EMUKIT_GP_EI" := Designer(EmukitDesigner),
    "BOCS" := Designer(BocsDesigner),
    "HARMONICA" := Designer(HarmonicaDesigner),
    "CMA_ES" := PartiallySerializable(CmaesDesigner)
  ]

  /** The message of the error an unregistered algorithm raises. */
  function NotRegisteredMessage(algorithm: string): string
  {
    "Algorithm " + algorithm + " is not registered."
  }

  /**
   * `policy_creator`: the policy for an algorithm name, built from the problem statement
   * and the policy supporter; a `ValueError` for any name that is not registered.
   */
  function PolicyCreator(problem: ProblemStatement, algorithm: string, supporter: PolicySupporter)
    : (r: Result<Policy, PythiaError>)
    ensures r.Ok? ==> r.value.supporter == supporter
    ensures r.Ok? && r.value.PartiallySerializableDesignerPolicy? ==> r.value.problem == problem
    ensures r.Err? ==> r.error == ValueError(NotRegisteredMessage(algorithm), None)
  {
    if algorithm in ["ALGORITHM_UNSPECIFIED", "RANDOM_SEARCH"] then
      Ok(RandomPolicy(supporter))
    else if algorithm == "QUASI_RANDOM_SEARCH" then
      Ok(PartiallySerializableDesignerPolicy(problem, supporter, QuasiRandomFromProblem))
    else if algorithm == "GRID_SEARCH" then
      Ok(PartiallySerializableDesignerPolicy(problem, supporter, GridSearchFromProblem))
    else if algorithm == "NSGA2" then
      Ok(PartiallySerializableDesignerPolicy(problem, supporter, CreateNsga2))
    else if algorithm == "EMUKIT_GP_EI" then
      Ok(DesignerPolicy(supporter, EmukitDesigner))
    else if algorithm == "BOCS" then
      Ok(DesignerPolicy(supporter, BocsDesigner))
    else if algorithm == "HARMONICA" then
      Ok(DesignerPolicy(supporter, HarmonicaDesigner))
    else if algorithm == "CMA_ES" then
      Ok(PartiallySerializableDesignerPolicy(problem, supporter, CmaesDesigner))
    else
      Err(ValueError(NotRegisteredMessage(algorithm), None))
  }

  /**
   * The dispatch agrees with the registry table in both directions: a name yields a
   * policy exactly when it is registered, and then the policy of the registered kind.
   */
  lemma PolicyCreatorMatchesRegistry(problem: ProblemStatement, algorithm: string, supporter: PolicySupporter)
    ensures PolicyCreator(problem, algorithm, supporter).Ok? <==> algorithm in Registry
    ensures algorithm in Registry ==> KindOf(PolicyCreator(problem, algorithm, supporter).value) == Registry[algorithm]
  {
  }

  /** Two different names never select the same designer factory or designer class. */
  lemma DesignersAreDistinct(problem: ProblemStatement, a: string, b: string, supporter: PolicySupporter)
    requires a != b
    requires PolicyCreator(problem, a, supporter).Ok? && PolicyCreator(problem, b, supporter).Ok?
    requires !PolicyCreator(problem, a, supporter).value.RandomPolicy?
    ensures KindOf(PolicyCreator(problem, a, supporter).value) != KindOf(PolicyCreator(problem, b, supporter).value)
  {
  }

  // ---------------------------------------------------------------------------------
  // The service
  // ---------------------------------------------------------------------------------

  /** A `Suggest` request: the study it is for, the algorithm and the study's configuration. */
  datatype SuggestRequest = SuggestRequest(studyGuid: string, algorithm: string, studyConfig: ProblemStatement, count: nat)

  /** An `EarlyStop` request. */
  datatype EarlyStopRequest = EarlyStopRequest(studyGuid: string, algorithm: string, studyConfig: ProblemStatement,
                                               trialIds: seq<nat>)

  /** The parameters of the suggested trials. */
  datatype SuggestDecision = SuggestDecision(suggestions: seq<map<string, real>>)

  /** The early-stopping decision for each trial. */
  datatype EarlyStopDecision = EarlyStopDecision(trialId: nat, shouldStop: bool)

  /** The prefix `Suggest` puts before the text of a policy's error. */
  const SuggestErrorPrefix := "Pythia has encountered an error: "

  /** The message of the error a second connection raises. */
  const AlreadySetMessage := "Vizier Service was already set:"

  /**
   * What a `Suggest` call answers: the creator's error unchanged when the algorithm is
   * not registered; otherwise the policy's decision, or its error wrapped in a
   * `RuntimeError` whose message is the fixed prefix followed by the error's text.
   */
  function SuggestAnswer(created: Result<Policy, PythiaError>, suggested: Policy -> Result<SuggestDecision, string>)
    : (r: Result<SuggestDecision, PythiaError>)
    ensures created.Err? ==> r == Err(created.error)
    ensures created.Ok? && suggested(created.value).Ok? ==> r == Ok(suggested(created.value).value)
    ensures created.Ok? && suggested(created.value).Err? ==>
              r.Err? && r.error.RuntimeError?
              && |r.error.message| == |SuggestErrorPrefix| + |suggested(created.value).error|
              && r.error.message[..|SuggestErrorPrefix|] == SuggestErrorPrefix
              && r.error.message[|SuggestErrorPrefix|..] == suggested(created.value).error
  {
    match created
    case Err(e) => Err(e)
    case Ok(policy) =>
      match suggested(policy)
      case Ok(decision) => Ok(decision)
      case Err(text) => Err(RuntimeError(SuggestErrorPrefix + text))
  }

  /**
   * For a registered algorithm, every error `Suggest` raises is a `RuntimeError`, and the
   * text of the policy's error can be read back from its message.
   */
  lemma SuggestErrorsAreRuntimeErrors(request: SuggestRequest, supporter: PolicySupporter,
                                      suggested: Policy -> Result<SuggestDecision, string>)
    requires request.algorithm in Registry
    ensures var created := PolicyCreator(request.studyConfig, request.algorithm, supporter);
            var r := SuggestAnswer(created, suggested);
            r.Err? ==> r.error.RuntimeError? && r.error.message[|SuggestErrorPrefix|..] == suggested(created.value).error
  {
    PolicyCreatorMatchesRegistry(request.studyConfig, request.algorithm, supporter);
  }

  /** The Pythia servicer. */
  class PythiaService {
    /** The Vizier service the policies reach the study through, once known. */
    var vizierService: Option<VizierService>

    /** The service may be given at construction (a servicer, for local use) or left unset. */
    constructor (vizierService: Option<VizierService>)
      ensures this.vizierService == vizierService
    {
      this.vizierService := vizierService;
    }

    /**
     * `connect_to_vizier`: when no service is held, the stub for the endpoint becomes the
     * service; when one is held, a `ValueError` carrying it is raised and nothing changes.
     * Creating the stub is a parameter.
     */
    method ConnectToVizier(endpoint: string, createStub: string -> VizierService) returns (outcome: Outcome<PythiaError>)
      modifies this
      ensures old(vizierService).Some? ==>
                outcome == Fail(ValueError(AlreadySetMessage, old(vizierService))) && vizierService == old(vizierService)
      ensures old(vizierService).None? ==> outcome == Pass && vizierService == Some(createStub(endpoint))
      ensures (vizierService, outcome) == Connect(old(vizierService), endpoint, createStub)
    {
      if vizierService.Some? {
        return Fail(ValueError(AlreadySetMessage, vizierService));
      }
      vizierService := Some(createStub(endpoint));
      outcome := Pass;
    }

    /**
     * `Suggest`: builds the policy for the request's algorithm with a supporter for the
     * request's study and the held service, and asks it for a decision. What a policy
     * decides is the parameter `suggested`.
     */
    method Suggest(request: SuggestRequest, suggested: Policy -> Result<SuggestDecision, string>)
      returns (r: Result<SuggestDecision, PythiaError>)
      ensures r == SuggestAnswer(PolicyCreator(request.studyConfig, request.algorithm,
                                               ServicePolicySupporter(request.studyGuid, vizierService)), suggested)
      ensures request.algorithm !in Registry ==> r == Err(ValueError(NotRegisteredMessage(request.algorithm), None))
    {
      var supporter := ServicePolicySupporter(request.studyGuid, vizierService);
      var policy := PolicyCreator(request.studyConfig, request.algorithm, supporter);
      PolicyCreatorMatchesRegistry(request.studyConfig, request.algorithm, supporter);
      if policy.Err? {
        return Err(policy.error);
      }
      var decision := suggested(policy.value);
      if decision.Err? {
        return Err(RuntimeError(SuggestErrorPrefix + decision.error));
      }
      r := Ok(decision.value);
    }

    /**
     * `EarlyStop`: as `Suggest`, but an error the policy raises propagates as it is,
     * without a wrapper.
     */
    method EarlyStop(request: EarlyStopRequest, decided: Policy -> Result<seq<EarlyStopDecision>, string>)
      returns (r: Result<seq<EarlyStopDecision>, PythiaError>)
      ensures var created := PolicyCreator(request.studyConfig, request.algorithm,
                                           ServicePolicySupporter(request.studyGuid, vizierService));
              match created
              case Err(e) => r == Err(e)
              case Ok(policy) =>
                match decided(policy)
                case Ok(decisions) => r == Ok(decisions)
                case Err(text) => r == Err(PolicyError(text))
      ensures request.algorithm !in Registry ==> r == Err(ValueError(NotRegisteredMessage(request.algorithm), None))
    {
      var supporter := ServicePolicySupporter(request.studyGuid, vizierService);
      var policy := PolicyCreator(request.studyConfig, request.algorithm, supporter);
      PolicyCreatorMatchesRegistry(request.studyConfig, request.algorithm, supporter);
      if policy.Err? {
        return Err(policy.error);
      }
      var decisions := decided(policy.value);
      if decisions.Err? {
        return Err(PolicyError(decisions.error));
      }
      r := Ok(decisions.value);
    }
  }

  /** One `connect_to_vizier` call on the held service: the new service and the outcome. */
  function Connect(held: Option<VizierService>, endpoint: string, createStub: string -> VizierService)
    : (Option<VizierService>, Outcome<PythiaError>)
  {
    if held.Some? then (held, Fail(ValueError(AlreadySetMessage, held)))
    else (Some(createStub(endpoint)), Pass)
  }

  /** The service held after a series of `connect_to_vizier` calls, one per endpoint. */
  function ConnectAll(held: Option<VizierService>, endpoints: seq<string>, createStub: string -> VizierService)
    : Option<VizierService>
    decreases |endpoints|
  {
    if |endpoints| == 0 then held
    else ConnectAll(Connect(held, endpoints[0], createStub).0, endpoints[1..], createStub)
  }

  /**
   * Set once: after any series of connections, a service that was held is still held;
   * from an unset service, the stub of the first endpoint is held, whatever follows.
   */
  lemma {:induction false} ConnectAllKeepsFirst(held: Option<VizierService>, endpoints: seq<string>,
                                                createStub: string -> VizierService)
    ensures held.Some? ==> ConnectAll(held, endpoints, createStub) == held
    ensures held.None? && |endpoints| > 0 ==> ConnectAll(held, endpoints, createStub) == Some(createStub(endpoints[0]))
    ensures held.None? && |endpoints| == 0 ==> ConnectAll(held, endpoints, createStub) == None
    decreases |endpoints|
  {
    if |endpoints| > 0 {
      var next := Connect(held, endpoints[0], createStub).0;
      ConnectAllKeepsFirst(next, endpoints[1..], createStub);
    }
  }

  /** Every connection after the first fails, and only the first one succeeds. */
  lemma SecondConnectionFails(endpoint1: string, endpoint2: string, createStub: string -> VizierService)
    ensures Connect(None, endpoint1, createStub).1 == Pass
    ensures var held := Connect(None, endpoint1, createStub).0;
            Connect(held, endpoint2, createStub) == (held, Fail(ValueError(AlreadySetMessage, held)))
  {
  }
}
