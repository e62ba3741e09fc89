/** The override records that the store keeps and the pipeline applies. */
module OverrideTypes {
  import opened Options

  datatype OverrideKind =
    | ToolToggle | ToolDescription | SystemPartToggle | SystemPartText | TruncateToolResult
    | MessageBlockToggle | MessageText | SamplingSet | ProviderExtrasSet

  /** `str | bool | int | None` */
  datatype OverrideValue = StrV(s: string) | BoolV(b: bool) | IntV(n: int) | NoneV

  datatype Override = Override(kind: OverrideKind, target: string, value: OverrideValue)

  function KindName(kind: OverrideKind): string {
    match kind
    case ToolToggle => "tool_toggle"
    case ToolDescription => "tool_description"
    case SystemPartToggle => "system_part_toggle"
    case SystemPartText => "system_part_text"
    case TruncateToolResult => "truncate_tool_result"
    case MessageBlockToggle => "message_block_toggle"
    case MessageText => "message_text"
    case SamplingSet => "sampling_set"
    case ProviderExtrasSet => "provider_extras_set"
  }

  /** Toggles before rewrites, global before targeted, metadata last. */
  function Priority(kind: OverrideKind): nat {
    match kind
    case ToolToggle => 1
    case ToolDescription => 2
    case SystemPartToggle => 3
    case SystemPartText => 4
    case TruncateToolResult => 5
    case MessageBlockToggle => 6
    case MessageText => 7
    case SamplingSet => 8
    case ProviderExtrasSet => 9
  }

  /** Tools come before the system, the system before the messages and the messages before the
      metadata; within each, a toggle comes before a rewrite. */
  lemma PrioritiesAreOrdered()
    ensures Priority(ToolToggle) < Priority(ToolDescription) < Priority(SystemPartToggle) < Priority(SystemPartText)
    ensures Priority(SystemPartText) < Priority(TruncateToolResult) < Priority(MessageBlockToggle)
    ensures Priority(MessageBlockToggle) < Priority(MessageText) < Priority(SamplingSet) < Priority(ProviderExtrasSet)
  {
  }

  /** `value` as `isinstance(value, int)` sees it: Python's `True` is the integer 1. */
  function AsInt(value: OverrideValue): Option<int> {
    match value
    case IntV(n) => Some(n)
    case BoolV(b) => Some(if b then 1 else 0)
    case _ => None
  }

  predicate SameKey(a: Override, b: Override) { a.kind == b.kind && a.target == b.target }

  /** No two overrides share kind and target. */
  ghost predicate UniqueKeys(os: seq<Override>) {
    forall i, j | 0 <= i < j < |os| :: !SameKey(os[i], os[j])
  }
}
