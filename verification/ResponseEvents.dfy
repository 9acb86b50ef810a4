/** Stream events of one response: what producers append and what readers get back. */
module ResponseEvents {
  import opened Domain

  datatype Kind =
    | Created | InProgressKind | OutputTextDelta | ReasoningTextDelta | OutputItemAdded | OutputItemDone
    | ArgumentsDelta | ArgumentsDone | ContentPartAdded | ContentPartDone | OutputTextDone
    | CompletedKind | FailedKind | IncompleteKind
  {
    predicate IsTerminal() {
      CompletedKind? || FailedKind? || IncompleteKind?
    }
  }

  datatype ResponseObject = ResponseObject(id: ResponseId, status: ResponseStatus, output: seq<ResponseItem>)

  datatype Body =
    | Delta(itemId: string, outputIndex: nat, textPart: Option<nat>, delta: string)
    | Item(outputIndex: nat, item: ResponseItem)
    | Arguments(outputIndex: nat, itemId: string, arguments: string)
    | Text(itemId: string, outputIndex: nat, contentIndex: nat, text: string)
    | Part(itemId: string, outputIndex: nat, contentIndex: nat, part: ContentPart)
    | Response(response: ResponseObject)

  datatype AppendEvent = AppendEvent(kind: Kind, attempt: Option<nat>, body: Body)

  /** An event with the sequence number its log gave it. */
  datatype ResponseEvent = ResponseEvent(seqNo: nat, event: AppendEvent)
}
