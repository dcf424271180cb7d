/** Result types and the failures the runner reports. */
module Common {
  datatype Option<+T> = None | Some(value: T)

  datatype Result<+T, +E> = Ok(value: T) | Err(error: E)

  datatype Error =
    // starting a node
    | KeyGenerationFailed
    | RepeatedNodeName
    | DirectoryFailed
    | BadConfigFile
    | VersionUnknown
    | WrongFlagType
    | NoFreePort
    | PortTaken
    | FileWriteFailed
    | BadIdentity
    | LaunchFailed
    | DuplicateBeacon
    // operating on nodes
    | NodeNotFound
    | AlreadyPaused
    | NotPaused
    | NonZeroExit
    | NetworkStopped
    | Unhealthy
    // configurations and snapshots
    | InvalidConfig
    | BadSnapshotName
    | SnapshotIO
    // the platform chain
    | ChainUnavailable
    | ContextDone
    | ParticipantNotInNetwork
    | ValidatorNotInNetwork
    // the server
    | AlreadyBootstrapped
    | NotBootstrapped
    | BadRequest
    | UnknownSubnet
    | NoNodes          // in the source, an index that is out of range

  /** What can go wrong before the process of a node is started. */
  predicate BeforeStart(e: Error) {
    || e.KeyGenerationFailed? || e.RepeatedNodeName? || e.DirectoryFailed? || e.BadConfigFile? || e.VersionUnknown?
    || e.WrongFlagType? || e.NoFreePort? || e.PortTaken? || e.FileWriteFailed? || e.BadIdentity? || e.LaunchFailed?
  }
}
