/** The values that Raft, the validator and the storage exchange. */
module Types {
  datatype Option<+T> = None | Some(value: T)

  newtype u64 = x: int | 0 <= x < 0x1_0000_0000_0000_0000
  type byte = b: int | 0 <= b < 256

  datatype BlockId = BlockId(bytes: seq<byte>)

  // What stands for a peer in the peers setting, in a membership change and in the peer map.
  type PeerBytes = seq<byte>

  // Raft ids are read from the last eight bytes, so a peer id that has one has at least eight.
  type PeerId = p: seq<byte> | 8 <= |p| witness [0, 0, 0, 0, 0, 0, 0, 0]

  // A block as announced by the validator.
  datatype Block = Block(id: BlockId, payload: seq<byte>)

  datatype ConfChange =
    | AddNode(nodeId: u64, context: PeerBytes)
    | RemoveNode(nodeId: u64)
    | AddLearnerNode(nodeId: u64)

  // What a log entry carries: no data at all, a block id (normal entry), a membership change, or
  // the bytes of a membership change that cannot be parsed.
  datatype Payload = Empty | Normal(block: BlockId) | Conf(change: ConfChange) | Garbled

  datatype Entry = Entry(index: nat, term: nat, payload: Payload)

  datatype HardState = HardState(term: nat, vote: nat, commit: nat)
  datatype ConfState = ConfState(nodes: seq<u64>)
  datatype RaftState = RaftState(hardState: HardState, confState: ConfState)
  datatype Snapshot = Snapshot(index: nat, term: nat, confState: Option<ConfState>, data: seq<byte>)

  datatype StorageError =
    | Compacted | Unavailable | SnapshotOutOfDate  // errors of the Raft storage interface
    | NotFound | InvalidData | IoFailed            // errors of the file system
    | Panic                                        // the call panics

  datatype Result<+T> = Ok(value: T) | Err(error: StorageError)

  const NO_HARD_STATE := HardState(0, 0, 0)
  const NO_SNAPSHOT := Snapshot(0, 0, None, [])
}
