/** Outbound changes to the remote and inbound writes to the storage. */
module Change {
  import opened Wrappers
  import opened Text
  import opened Placement

  datatype Checkpoint = Checkpoint(token: seq<Byte>)

  datatype ChangeKind =
    | Add(handle: Handle, linkId: Option<LinkId>, flags: Flags, origin: Option<Origin>, body: Option<Hash>)
    | Remove(handle: Handle, to: Option<CollectionId>, linkId: Option<LinkId>, ifMatch: Option<Revision>)
    | SetFlags(handle: Handle, flags: Flags)
    | Update(handle: Handle, hash: Hash, ifMatch: Option<Revision>)

  datatype DropReason = Deleted | Superseded

  datatype StoredObject = StoredObject(hash: Hash, size: nat)

  datatype WriteOp =
    | UpsertPlacement(placement: Placement)
    | DropPlacement(collection: CollectionId, handle: Handle, reason: DropReason)
    | StoreObject(stored: StoredObject, bytes: Option<seq<Byte>>)
    | SetCheckpoint(collection: CollectionId, checkpoint: Checkpoint)
  {
    /** A body as it is kept, no bytes being an empty one. */
    function AsStored(): (StoredObject, seq<Byte>)
      requires StoreObject?
    {
      (stored, if bytes.Some? then bytes.value else [])
    }
  }
}

/** One row of an enumeration, the snapshot holding it, and the outcome of a push. */
module Remote {
  import opened Wrappers
  import opened Placement
  import opened Change

  datatype RemoteItem = RemoteItem(handle: Handle, flags: Flags, revision: Option<Revision>)

  datatype Snapshot = Snapshot(
    items: seq<RemoteItem>,
    vanished: seq<Handle>,
    complete: bool,
    checkpoint: Checkpoint
  )

  datatype PushOutcome = Accepted | Rejected

  datatype PushResult = PushResult(
    handle: Handle,
    outcome: PushOutcome,
    assignedHandle: Option<Handle>,
    revision: Option<Revision>
  )
}
