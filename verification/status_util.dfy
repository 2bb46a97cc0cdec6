/**
  Labels and Tailwind classes for care-session statuses (`StatusUtil`).
  The table knows four statuses; any other status string falls back to a
  gray badge and shows its raw text.
*/
module StatusUtil {
  import opened Wrappers
  import opened Strings

  /** One row of the status table; every row carries border classes, so the optional field is always set. */
  datatype StatusConfig = StatusConfig(labelText: string, colorClasses: string, borderClasses: string)

  const StatusTable: map<string, StatusConfig> := map[
    "scheduled" := StatusConfig("Programada", "bg-yellow-100 text-yellow-800", "border-yellow-300"),
    "in-progress" := StatusConfig("En Progreso", "bg-blue-100 text-blue-800", "border-blue-300"),
    "completed" := StatusConfig("Completada", "bg-green-100 text-green-800", "border-green-300"),
    "cancelled" := StatusConfig("Cancelada", "bg-red-100 text-red-800", "border-red-300")
  ]

  const FallbackColor := "bg-gray-100 text-gray-800"
  const FallbackBorder := "border-gray-300"

  /** `getStatusConfig`: the table row, `None` for a status the table does not know. */
  function GetStatusConfig(status: string): (r: Option<StatusConfig>)
    ensures r.Some? <==> status in {"scheduled", "in-progress", "completed", "cancelled"}
    ensures r.Some? ==> r.value.labelText != status && r.value.borderClasses != ""
  {
    if status in StatusTable then Some(StatusTable[status]) else None
  }

  /** `getStatusColor(status, includeBorder)`. */
  function GetStatusColor(status: string, includeBorder: bool): (r: string)
    ensures GetStatusConfig(status).None? ==> r == FallbackColor + (if includeBorder then " " + FallbackBorder else "")
    ensures GetStatusConfig(status).Some? ==> StartsWith(r, GetStatusConfig(status).value.colorClasses)
    ensures GetStatusConfig(status).Some? && !includeBorder ==> r == GetStatusConfig(status).value.colorClasses
  {
    match GetStatusConfig(status)
    case None => FallbackColor + (if includeBorder then " border-gray-300" else "")
    case Some(c) => c.colorClasses + (if includeBorder && c.borderClasses != "" then " " + c.borderClasses else "")
  }

  /** `getStatusLabel`: the translated label, or the status itself when the table has none. */
  function GetStatusLabel(status: string): (r: string)
    ensures r == status <==> GetStatusConfig(status).None?
    ensures GetStatusConfig(status).Some? ==> r == GetStatusConfig(status).value.labelText
  {
    match GetStatusConfig(status)
    case Some(c) => if c.labelText != "" then c.labelText else status
    case None => status
  }

  /** The bordered classes are the plain classes followed by a space and one border class. */
  lemma BorderExtendsColor(status: string)
    ensures GetStatusColor(status, true) == GetStatusColor(status, false) + " "
              + (if GetStatusConfig(status).Some? then GetStatusConfig(status).value.borderClasses else FallbackBorder)
  {
  }

  /** The character at index 5 of each row's colour classes: l(ow), (bl)u(e), (gr)e(en), (re)d, and (gr)a(y) for the fallback. */
  function ColorKey(status: string): char {
    if status == "scheduled" then 'l'
    else if status == "in-progress" then 'u'
    else if status == "completed" then 'e'
    else if status == "cancelled" then 'd'
    else 'a'
  }

  lemma ColorKeyAt(status: string, includeBorder: bool)
    ensures |GetStatusColor(status, includeBorder)| > 5
    ensures GetStatusColor(status, includeBorder)[5] == ColorKey(status)
  {
    var r := GetStatusColor(status, includeBorder);
    var cfg := GetStatusConfig(status);
    if cfg.Some? {
      var p := cfg.value.colorClasses;
      assert r[..|p|] == p;
      assert r[5] == p[5];
    } else {
      assert r[..|FallbackColor|] == FallbackColor;
    }
  }

  /** The badge colour tells the four known statuses apart, and none of them looks like an unknown one. */
  lemma ColorIdentifiesStatus(a: string, b: string, includeBorder: bool)
    requires GetStatusConfig(a).Some?
    ensures GetStatusColor(a, includeBorder) != GetStatusColor("unknown", includeBorder)
    ensures GetStatusConfig(b).Some? && a != b ==> GetStatusColor(a, includeBorder) != GetStatusColor(b, includeBorder)
  {
    ColorKeyAt(a, includeBorder);
    ColorKeyAt(b, includeBorder);
    ColorKeyAt("unknown", includeBorder);
  }
}
