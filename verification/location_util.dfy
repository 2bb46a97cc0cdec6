/**
  Labels, Tailwind classes and icons for location types (`LocationUtil`).
  The table knows five types; an unknown type borrows the classes and the
  icon of 'other' but shows its raw text as label.
*/
module LocationUtil {
  import opened Wrappers
  import opened Strings

  datatype LocationTypeConfig = LocationTypeConfig(labelText: string, colorClasses: string, borderClasses: string, icon: string)

  const TypeTable: map<string, LocationTypeConfig> := map[
    "home" := LocationTypeConfig("Casa", "bg-blue-100 text-blue-800", "border-blue-300", "\U{1F3E0}"),
    "vet" := LocationTypeConfig("Veterinaria", "bg-red-100 text-red-800", "border-red-300", "\U{1F3E5}"),
    "grooming" := LocationTypeConfig("Peluquer\U{ED}a", "bg-purple-100 text-purple-800", "border-purple-300", "\U{2702}\U{FE0F}"),
    "park" := LocationTypeConfig("Parque", "bg-green-100 text-green-800", "border-green-300", "\U{1F333}"),
    "other" := LocationTypeConfig("Otro", "bg-gray-100 text-gray-800", "border-gray-300", "\U{1F4CD}")
  ]

  /** `getTypeConfig`: the table row, `None` for a type the table does not know. */
  function GetTypeConfig(kind: string): (r: Option<LocationTypeConfig>)
    ensures r.Some? <==> kind in {"home", "vet", "grooming", "park", "other"}
    ensures r.Some? ==> r.value.labelText != "" && r.value.icon != "" && r.value.labelText != kind
  {
    if kind in TypeTable then Some(TypeTable[kind]) else None
  }

  /** The row a lookup falls back to. */
  function Other(): (c: LocationTypeConfig)
    ensures GetTypeConfig("other") == Some(c)
  {
    TypeTable["other"]
  }

  /** A row's colour classes, with its border class after a space when asked for. */
  function Classes(c: LocationTypeConfig, includeBorder: bool): string {
    c.colorClasses + (if includeBorder then " " + c.borderClasses else "")
  }

  /** `getTypeColor(type, includeBorder)`: an unknown type is coloured as 'other'. */
  function GetTypeColor(kind: string, includeBorder: bool): (r: string)
    ensures GetTypeConfig(kind).None? ==> StartsWith(r, Other().colorClasses)
    ensures GetTypeConfig(kind).Some? ==> StartsWith(r, GetTypeConfig(kind).value.colorClasses)
    ensures !includeBorder ==> r == (if GetTypeConfig(kind).Some? then GetTypeConfig(kind).value else Other()).colorClasses
  {
    match GetTypeConfig(kind)
    case None => Classes(Other(), includeBorder)
    case Some(c) => Classes(c, includeBorder)
  }

  /** `getTypeLabel`: the translated label, or the type itself when the table has none. */
  function GetTypeLabel(kind: string): (r: string)
    ensures r == kind <==> GetTypeConfig(kind).None?
    ensures GetTypeConfig(kind).Some? ==> r == GetTypeConfig(kind).value.labelText
  {
    match GetTypeConfig(kind)
    case Some(c) => if c.labelText != "" then c.labelText else kind
    case None => kind
  }

  /** `getTypeIcon`: the type's icon, the pin of 'other' when the type is unknown. */
  function GetTypeIcon(kind: string): (r: string)
    ensures r != ""
    ensures GetTypeConfig(kind).None? ==> r == Other().icon
    ensures GetTypeConfig(kind).Some? ==> r == GetTypeConfig(kind).value.icon
  {
    match GetTypeConfig(kind)
    case Some(c) => if c.icon != "" then c.icon else Other().icon
    case None => Other().icon
  }

  /** The bordered classes are the plain classes followed by a space and the row's border class. */
  lemma BorderExtendsTypeColor(kind: string)
    ensures GetTypeColor(kind, true) == GetTypeColor(kind, false) + " "
              + (if GetTypeConfig(kind).Some? then GetTypeConfig(kind).value.borderClasses else Other().borderClasses)
  {
    var c := match GetTypeConfig(kind) case Some(c) => c case None => Other();
    assert GetTypeColor(kind, true) == Classes(c, true);
    assert GetTypeColor(kind, false) == Classes(c, false);
  }

  /** An unknown type looks exactly like 'other' except for its label. */
  lemma UnknownTypeLooksLikeOther(kind: string, includeBorder: bool)
    requires GetTypeConfig(kind).None?
    ensures GetTypeColor(kind, includeBorder) == GetTypeColor("other", includeBorder)
    ensures GetTypeIcon(kind) == GetTypeIcon("other")
    ensures GetTypeLabel(kind) == kind
  {
  }
}
