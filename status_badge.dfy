/** The status badge (src/components/shared/status-badge.tsx): colour by status, label text and width class. */
module StatusBadge {
  import opened Wrappers
  import opened JsStrings

  const GREEN := "bg-green-100 text-green-700 border border-green-700"
  const YELLOW := "bg-yellow-100 text-yellow-600 border border-yellow-600"
  const ORANGE := "bg-orange-100 text-orange-700 border border-orange-700"
  const PURPLE := "bg-purple-100 text-purple-700 border border-purple-700"
  const RED := "bg-red-100 text-red-700 border border-red-700"
  const GRAY := "bg-gray-100 text-gray-500 border border-gray-500"

  /** The statuses the badge's type admits. */
  const GLOBAL_STATUSES: seq<string> :=
    ["success", "successful", "active", "pending", "unverified", "verified", "failed", "declined"]

  /** `getStatusStyles`: one colour per status group, gray for anything else. */
  function StatusStyles(status: string): (style: string)
    ensures style == GRAY <==> status !in GLOBAL_STATUSES
    ensures style == GREEN <==> status in {"success", "successful", "active"}
    ensures style == RED <==> status in {"failed", "declined"}
  {
    match status
    case "success" => GREEN
    case "successful" => GREEN
    case "active" => GREEN
    case "pending" => YELLOW
    case "unverified" => ORANGE
    case "verified" => PURPLE
    case "failed" => RED
    case "declined" => RED
    case _ => GRAY
  }

  /** Each of the six colours belongs to a different group: no two groups share a style. */
  lemma GroupsAreDistinct()
    ensures |{GREEN, YELLOW, ORANGE, PURPLE, RED, GRAY}| == 6
    ensures StatusStyles("pending") == YELLOW && StatusStyles("unverified") == ORANGE && StatusStyles("verified") == PURPLE
  {
  }

  /** The label: underscores become spaces and the text is lowercased, but only when there was an underscore. */
  function Label(status: string): (text: string)
    ensures '_' !in text
    ensures '_' !in status ==> text == status
    ensures '_' in status ==> text == ToLowerAscii(ReplaceAllChar(status, '_', ' '))
    ensures |text| == |status|
  {
    if '_' in status then
      var text := ToLowerAscii(ReplaceAllChar(status, '_', ' '));
      assert forall i :: 0 <= i < |text| ==> text[i] != '_';
      text
    else status
  }

  /** Normalising a label twice changes nothing. */
  lemma LabelIdempotent(status: string)
    ensures Label(Label(status)) == Label(status)
  {
  }

  const DEFAULT_WIDTH_CLASS := "w-[85px]"

  /** The width class: the given width when it is non-empty, else 85 pixels. */
  function WidthClass(width: Option<string>): (c: string)
    ensures width.None? || width.value == "" ==> c == DEFAULT_WIDTH_CLASS
    ensures width.Some? && width.value != "" ==> "w-[" <= c && c[|c| - 1] == ']' && c[3..|c| - 1] == width.value
  {
    if width.Some? && width.value != "" then "w-[" + width.value + "]" else DEFAULT_WIDTH_CLASS
  }
}
