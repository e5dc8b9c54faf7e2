/** The records of the session subsystem (subsystems/session/service.go, wire.go). Times are nanoseconds. */
module SessionTypes {

  datatype Option<+T> = None | Some(value: T)

  type Id = string
  type Principal = string

  const SECOND := 1_000_000_000
  const MINUTE := 60 * SECOND

  datatype Phase = Submitting | Queued | Starting | Ready | Stopping | Stopped | Failed

  /** `Plane` runs are submitted by cs-plane, `Client` runs by the caller itself. */
  datatype Launcher = Plane | Client

  /** The scheduler name `cs-<id>-<seq>` of a run; `Unnamed` is the empty name of a session that never ran. */
  datatype JobName = Unnamed | JobName(id: Id, seqNo: nat)

  datatype Resources = Resources(cores: int, memoryMb: int, wallMinutes: int, gpuType: string, gpuCount: int)

  /** What a create request fixes about a session. */
  datatype Spec = Spec(host: string, account: string, partition: string, rootFolder: string,
                       resources: Resources, tunnelModes: seq<string>)

  /**
   A stored session. `life` numbers the Define that created the record: it is bookkeeping of the model, which
   lets properties tell a record from a later one that was defined again under the same id.
   `tunnel` is the Dev Tunnel id and `jobId` the scheduler's id; both are empty when there is none.
   */
  datatype Session = Session(
    id: Id, life: nat, owner: Principal, seqNo: nat, phase: Phase, launcher: Launcher, spec: Spec,
    error: string, createdAt: int, startedAt: Option<int>, updatedAt: int,
    tunnel: string, jobId: string, jobName: JobName, node: string)

  predicate Terminal(p: Phase) { p == Stopped || p == Failed }

  predicate Reconcilable(p: Phase) { !Terminal(p) }

  /** A stop of the run has been stored, or the run is over. */
  predicate Settled(p: Phase) { p == Stopping || Terminal(p) }

  /** The run may be serving: its capability file must exist. */
  predicate Active(p: Phase) { p == Queued || p == Starting || p == Ready }

  /** Go's cmp.Or on times: the first one that is set. */
  function OrTime(t: Option<int>, otherwise: int): Option<int> {
    if t.Some? then t else Some(otherwise)
  }

  /** Go's cmp.Or on strings: the first one that is not empty. */
  function OrText(a: string, b: string): string {
    if a != "" then a else b
  }
}
