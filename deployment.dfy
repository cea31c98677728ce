/**
 * The deployment status of SafeInfo.tsx: the two React state cells
 * `isDeployed` and `isDeployLoading`, and `detectSafeIsDeployed`, which each
 * polling tick runs to store the probe's answer in them.
 */
module DeployStatus {
  import opened ContractProbe

  /** The pair of state cells, as a value. */
  datatype DeployState = DeployState(isDeployed: bool, isDeployLoading: bool)

  /** `useState(false)` and `useState(true)`: not deployed, still being determined. */
  const Initial: DeployState := DeployState(false, true)

  /** One completed probe: the deployed flag takes the probe's answer and loading ends. */
  function Step(s: DeployState, result: bool): (t: DeployState)
    ensures t.isDeployed == result
    ensures !t.isDeployLoading
  {
    s.(isDeployed := result, isDeployLoading := false)
  }

  /**
   * The state after the probes that completed, in completion order: the
   * repeated `detectSafeIsDeployed` ticks. No probe leaves the state as it was;
   * loading survives exactly when it was on and no probe completed.
   */
  function Run(s: DeployState, results: seq<bool>): (t: DeployState)
    ensures results == [] ==> t == s
    ensures t.isDeployLoading <==> s.isDeployLoading && results == []
    decreases |results|
  {
    if results == [] then s else Run(Step(s, results[0]), results[1..])
  }

  /** Running two batches of probes one after the other is running them together. */
  lemma {:induction false} RunAppend(s: DeployState, a: seq<bool>, b: seq<bool>)
    ensures Run(s, a + b) == Run(Run(s, a), b)
    decreases |a|
  {
    if a == [] {
      assert a + b == b;
    } else {
      assert (a + b)[0] == a[0];
      assert (a + b)[1..] == a[1..] + b;
      RunAppend(Step(s, a[0]), a[1..], b);
    }
  }

  /** The deployed flag is the answer of the last completed probe. */
  lemma {:induction false} RunDeployed(s: DeployState, results: seq<bool>)
    ensures results != [] ==> Run(s, results).isDeployed == results[|results| - 1]
    decreases |results|
  {
    if results != [] {
      RunDeployed(Step(s, results[0]), results[1..]);
    }
  }

  /** From the initial state: loading exactly until the first probe completes. */
  lemma {:induction false} InitialLoadingUntilFirstProbe(results: seq<bool>)
    ensures Run(Initial, results).isDeployLoading <==> results == []
    ensures Run(Initial, results).isDeployed <==> results != [] && results[|results| - 1]
  {
    RunDeployed(Initial, results);
  }

  /**
   * Once a probe has completed, no later sequence of probes turns loading back
   * on. A corollary of the contract of `Run`.
   */
  lemma SettledStaysSettled(first: seq<bool>, later: seq<bool>)
    requires first != []
    ensures !Run(Initial, first + later).isDeployLoading
  {
  }

  /**
   * The component's two state cells. `history` records, for the proof only,
   * the answers of the probes that have completed since the component mounted.
   */
  class DeploymentCells {
    var isDeployed: bool
    var isDeployLoading: bool
    ghost var history: seq<bool>

    function State(): DeployState
      reads this
    {
      DeployState(isDeployed, isDeployLoading)
    }

    /** The cells hold what the completed probes leave behind. */
    ghost predicate Valid()
      reads this
    {
      State() == Run(Initial, history)
    }

    /** Mounting the component: both `useState` calls take their initial values. */
    constructor ()
      ensures Valid() && history == []
      ensures State() == Initial
    {
      isDeployed := false;
      isDeployLoading := true;
      history := [];
    }

    /**
     * `setIsDeployed`. Like a React state setter it knows nothing of the
     * history, so it neither needs nor keeps `Valid()`; `DetectSafeIsDeployed` restores it.
     */
    method SetIsDeployed(value: bool)
      modifies this`isDeployed
      ensures isDeployed == value
    {
      isDeployed := value;
    }

    /** `setIsDeployLoading`. Neither needs nor keeps `Valid()`, as for `SetIsDeployed`. */
    method SetIsDeployLoading(value: bool)
      modifies this`isDeployLoading
      ensures isDeployLoading == value
    {
      isDeployLoading := value;
    }

    /**
     * `detectSafeIsDeployed`: await the probe (its outcome is an input here),
     * then store its answer and end loading. Nothing else changes.
     */
    method DetectSafeIsDeployed(outcome: GetCodeOutcome)
      requires Valid()
      modifies this
      ensures Valid()
      ensures history == old(history) + [IsContractAddress(outcome)]
      ensures State() == Step(old(State()), IsContractAddress(outcome))
      ensures isDeployed == IsContractAddress(outcome) && !isDeployLoading
    {
      var deployed := IsContractAddress(outcome);
      SetIsDeployed(deployed);
      SetIsDeployLoading(false);
      RunAppend(Initial, history, [deployed]);
      history := history + [deployed];
    }
  }
}
