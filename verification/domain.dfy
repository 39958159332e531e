/** Values shared by every component: node lifecycle states, deployment kinds,
    run records and the errors ports and the engine return. */
module Domain {
  type NodeId = string
  type HostAddr = string
  type Version = string

  /** A wall-clock instant. Nothing assumes that successive readings increase. */
  type Instant = int

  datatype Option<+T> = None | Some(value: T)

  /** Failures of an outbound port, without their message text. */
  datatype PortError = Unavailable | Timeout | Rejected | Internal {
    predicate IsRetryable() {
      Unavailable? || Timeout?
    }
  }

  /** `Result<(), PortError>`: what an agent call returns. */
  datatype Reply = Done | Err(error: PortError)

  datatype CoreError =
    | IllegalTransition(source: NodeState, target: NodeState)
    | Port(cause: PortError)
    | NotFound(id: NodeId)
    | Throttled

  datatype Result<+T> = Ok(value: T) | Failure(error: CoreError)

  datatype NodeState =
    | Provisioning
    | Bootstrapping
    | CatchingUp
    | Active
    | Delinquent
    | Draining
    | Decommissioned
    | Failed
  {
    predicate IsTerminal() {
      Decommissioned? || Failed?
    }

    /** The lifecycle graph. */
    predicate CanTransitionTo(next: NodeState) {
      match this
      case Provisioning => next == Bootstrapping || next == Failed
      case Bootstrapping => next == CatchingUp || next == Failed
      case CatchingUp => next == Active || next == Failed
      case Active => next == Delinquent || next == Draining
      case Delinquent => next == CatchingUp || next == Draining
      case Draining => next == Decommissioned || next == CatchingUp
      case Decommissioned => false
      case Failed => false
    }
  }

  datatype Cluster = Mainnet | Testnet | Devnet
  datatype NodeRole = Voting | Rpc | HotSpare

  /** The identity fields a node keeps for life. */
  datatype Placement = Placement(clusterName: string, cluster: Cluster, role: NodeRole)

  /** A snapshot of a validator node, as repositories store and return it. */
  datatype Node = Node(
    id: NodeId,
    placement: Placement,
    host: HostAddr,
    version: Version,
    state: NodeState,
    createdAt: Instant,
    updatedAt: Instant)

  datatype DeploymentKind =
    | Provision
    | Upgrade(targetVersion: Version)
    | Failover(spare: NodeId)
    | Decommission

  datatype OpsActionKind =
    | ApplyInfra
    | TuneHost
    | StartValidator
    | AwaitCatchup
    | Drain
    | SwapIdentity
    | DestroyInfra

  datatype RunStatus = Running | Succeeded | RolledBack | RunFailed {
    predicate IsTerminal() {
      !Running?
    }
  }

  type RunId = nat

  /** A snapshot of a run record, as repositories store and return it. */
  datatype Run = Run(
    id: RunId,
    target: NodeId,
    kind: DeploymentKind,
    status: RunStatus,
    completedSteps: seq<OpsActionKind>,
    startedAt: Instant,
    finishedAt: Option<Instant>)

  datatype OpsEvent =
    | RunStarted(run: RunId, node: NodeId, kind: DeploymentKind)
    | StepCompleted(run: RunId, action: OpsActionKind)
    | StepCompensated(run: RunId, action: OpsActionKind)
    | NodeStateChanged(node: NodeId, source: NodeState, target: NodeState)
    | RunFinished(run: RunId, status: RunStatus)

  function Max(a: nat, b: nat): nat {
    if a < b then b else a
  }

  function Min(a: nat, b: nat): nat {
    if a < b then a else b
  }
}
