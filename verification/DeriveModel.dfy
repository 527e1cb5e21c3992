/** What the deriver hands to the span emitter: hash-linked nodes, and one record per
    captured call naming the retained node at every chain position. */
module DeriveModel {
  import opened Llm

  datatype Session = Session(harness: string, id: string)

  /** The call taxonomy. Main and Compaction drive the walk; every other call kind is a
      shadow call, and injected kinds only ever label nodes and event spans. */
  datatype Kind =
    | Main
    | Compaction
    | Injected(name: string)
    | Shadow(name: string)

  datatype Role = User | Assistant | System | Tool | OtherRole(name: string)

  datatype Bucket = Bucket(
    role: Role,
    content: seq<ContentBlock>,
    model: string,
    provider: string,
    agent: string)

  /** What a hash covers: the role and the projected content. Model, provider and agent
      are routing metadata and stay out of it. */
  datatype Digest = Digest(role: Role, content: seq<ContentBlock>)

  /** The content hash, taken as injective: a digest together with the parent's hash. */
  datatype Hash = H(digest: Digest, parent: Option<Hash>)

  /** A node of the derived layer. forkStamp is the node's ParentToolUseID. */
  datatype Node = Node(
    hash: Hash,
    bucket: Bucket,
    kind: Kind,
    thread: string,
    stopReason: string,
    usage: Option<Usage>,
    capturedAt: int,
    forkStamp: string)

  /** One SpanSource. chain runs root to leaf with the response last; isNew[i] marks the
      positions this call captured first. */
  datatype Call = Call(
    rawTurn: nat,
    requestId: string,
    at: int,
    kind: Kind,
    thread: string,
    session: Session,
    chain: seq<Node>,
    isNew: seq<bool>,
    anchor: string)
  {
    predicate Valid() {
      |isNew| == |chain|
    }

    function Response(): Node
      requires chain != []
    {
      chain[|chain| - 1]
    }
  }

  /** Harness-scoped keys: tool_use ids and thread ids are only unique inside a session. */
  datatype Key = Key(session: Session, id: string)
}
