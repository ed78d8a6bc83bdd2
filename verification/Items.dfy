/** SDK input items, reduced to the fields that the context pipeline reads. */
module Items {

  datatype ItemType = Message | FunctionCall | FunctionCallOutput | Reasoning | OtherType

  datatype Role = User | Assistant | OtherRole

  /** `text` is the concatenated text of the content field. */
  datatype Item = Item(itemType: ItemType, role: Role, id: string, callId: string, text: string)

  const CONTEXT_SUMMARY_ITEM_ID := "context_summary"
  const TASK_RESUMPTION_CONTEXT_ITEM_ID := "task_resumption_context"

  /** The call id of a tool item: `call_id`, or `id` when that is missing. */
  function ToolCallId(item: Item): string {
    if item.callId != "" then item.callId else item.id
  }

  predicate IsToolItem(item: Item) {
    item.itemType.FunctionCall? || item.itemType.FunctionCallOutput?
  }

  predicate IsUserMessage(item: Item) {
    item.itemType.Message? && item.role.User?
  }

  predicate IsContextSummary(item: Item) {
    IsUserMessage(item) && item.id == CONTEXT_SUMMARY_ITEM_ID
  }

  predicate IsInternalContext(item: Item) {
    IsUserMessage(item) && item.id in {CONTEXT_SUMMARY_ITEM_ID, TASK_RESUMPTION_CONTEXT_ITEM_ID}
  }

  /** Cost of one item: a fixed 4 tokens plus the length of its encoding. */
  function ItemTokens(enc: Item -> nat, item: Item): nat {
    4 + enc(item)
  }

  function Tokens(enc: Item -> nat, items: seq<Item>): nat {
    if items == [] then 0 else ItemTokens(enc, items[0]) + Tokens(enc, items[1..])
  }

  lemma {:induction false} TokensAppend(enc: Item -> nat, a: seq<Item>, b: seq<Item>)
    ensures Tokens(enc, a + b) == Tokens(enc, a) + Tokens(enc, b)
  {
    if a == [] {
      assert a + b == b;
    } else {
      assert (a + b)[1..] == a[1..] + b;
      TokensAppend(enc, a[1..], b);
    }
  }
}
