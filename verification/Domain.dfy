/** Values shared by every component: ids, statuses, usage, items and the response record. */
module Domain {

  datatype Option<+T> = None | Some(value: T)

  datatype Result<+T, +E> = Ok(value: T) | Err(error: E)

  // Ids are opaque tokens compared for equality only.
  type ResponseId = nat
  type ConversationId = nat
  type TenantId = nat
  type AgentId = nat
  type IdempotencyKey = nat

  const U64_MAX: nat := 0xFFFF_FFFF_FFFF_FFFF

  /** Rust's `u64::saturating_add`. */
  function SatAdd(a: nat, b: nat): (r: nat)
    ensures a + b <= U64_MAX ==> r == a + b
    ensures r <= U64_MAX
  {
    if a + b <= U64_MAX then a + b else U64_MAX
  }

  datatype ResponseStatus = Queued | InProgress | Completed | Failed | Incomplete | Cancelled {
    predicate IsTerminal() {
      !Queued? && !InProgress?
    }
  }

  /** Token accounting; two `u64` counters that never wrap. */
  datatype Usage = Usage(input: nat, output: nat) {
    predicate IsZero() {
      input == 0 && output == 0
    }

    predicate InRange() {
      input <= U64_MAX && output <= U64_MAX
    }

    function Accumulate(other: Usage): Usage {
      Usage(SatAdd(input, other.input), SatAdd(output, other.output))
    }
  }

  const ZERO_USAGE := Usage(0, 0)

  datatype Role = User | Assistant | System | Developer

  datatype ItemStatus = ItemInProgress | ItemCompleted | ItemIncomplete

  datatype ContentPart =
    | InputText(text: string)
    | OutputText(text: string)
    | Refusal(refusal: string)
    | InputImage(imageUrl: Option<string>, imageFile: Option<string>)
    | InputFile(fileId: Option<string>, fileUrl: Option<string>, filename: Option<string>)

  datatype ResponseItem =
    | Message(role: Role, content: seq<ContentPart>, id: Option<string>, status: Option<ItemStatus>)
    | FunctionCall(callId: string, name: string, arguments: string, id: Option<string>, status: Option<ItemStatus>)
    | FunctionCallOutput(callId: string, output: string, id: Option<string>, status: Option<ItemStatus>)

  /** Where a response inherits its context from. */
  datatype ContextAnchor = Root | Previous(response: ResponseId) | InConversation(conversation: ConversationId) {
    function ConversationOf(): Option<ConversationId> {
      if InConversation? then Some(conversation) else None
    }
  }

  datatype ResponseRecord = ResponseRecord(
    responseId: ResponseId,
    tenant: TenantId,
    anchor: ContextAnchor,
    store: bool,
    input: seq<ResponseItem>,
    status: ResponseStatus,
    usage: Usage,
    completedAt: Option<nat>,
    expiresAt: Option<nat>,
    owner: Option<AgentId>,
    attempt: nat,
    integrity: Option<string>)
  {
    predicate Live() {
      !status.IsTerminal()
    }
  }
}
