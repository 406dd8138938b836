/** The parcel status vocabulary and its display table. */
module ParcelStatus {
  import opened Wrappers

  /** The twelve values of the `ParcelStatus` union type. */
  datatype Status =
    | PENDING | RECEIVED | PROCESSING | READY | SHIPPED | IN_TRANSIT
    | CUSTOMS | OUT_FOR_DELIVERY | DELIVERED | EXCEPTION | RETURNED | CANCELLED

  /** The string the API uses for each status. */
  function Name(s: Status): string {
    match s
    case PENDING => "PENDING"
    case RECEIVED => "RECEIVED"
    case PROCESSING => "PROCESSING"
    case READY => "READY"
    case SHIPPED => "SHIPPED"
    case IN_TRANSIT => "IN_TRANSIT"
    case CUSTOMS => "CUSTOMS"
    case OUT_FOR_DELIVERY => "OUT_FOR_DELIVERY"
    case DELIVERED => "DELIVERED"
    case EXCEPTION => "EXCEPTION"
    case RETURNED => "RETURNED"
    case CANCELLED => "CANCELLED"
  }

  /** The status a string names, if it names one (a key of the table). */
  function Parse(name: string): (r: Option<Status>)
    ensures r.Some? ==> Name(r.value) == name
    ensures r.None? <==> forall s: Status :: Name(s) != name
  {
    if name == "PENDING" then Some(PENDING)
    else if name == "RECEIVED" then Some(RECEIVED)
    else if name == "PROCESSING" then Some(PROCESSING)
    else if name == "READY" then Some(READY)
    else if name == "SHIPPED" then Some(SHIPPED)
    else if name == "IN_TRANSIT" then Some(IN_TRANSIT)
    else if name == "CUSTOMS" then Some(CUSTOMS)
    else if name == "OUT_FOR_DELIVERY" then Some(OUT_FOR_DELIVERY)
    else if name == "DELIVERED" then Some(DELIVERED)
    else if name == "EXCEPTION" then Some(EXCEPTION)
    else if name == "RETURNED" then Some(RETURNED)
    else if name == "CANCELLED" then Some(CANCELLED)
    else None
  }

  datatype StatusConfig = StatusConfig(labelText: string, color: string, bgColor: string, borderColor: string, icon: string)

  /** `STATUS_CONFIG` (`labelText` is the entry's `label`). */
  function Config(s: Status): StatusConfig {
    match s
    case PENDING => StatusConfig("En attente", "text-amber-700", "bg-amber-50", "border-amber-200", "\U{23F3}")
    case RECEIVED => StatusConfig("Re\U{E7}u \U{E0} l'entrep\U{F4}t", "text-blue-700", "bg-blue-50", "border-blue-200", "\U{1F4E6}")
    case PROCESSING => StatusConfig("En traitement", "text-cyan-700", "bg-cyan-50", "border-cyan-200", "\U{2699}\U{FE0F}")
    case READY => StatusConfig("Pr\U{EA}t pour exp\U{E9}dition", "text-teal-700", "bg-teal-50", "border-teal-200", "\U{1F4CB}")
    case SHIPPED => StatusConfig("Exp\U{E9}di\U{E9}", "text-violet-700", "bg-violet-50", "border-violet-200", "\U{1F6A2}")
    case IN_TRANSIT => StatusConfig("En transit", "text-purple-700", "bg-purple-50", "border-purple-200", "\U{2708}\U{FE0F}")
    case CUSTOMS => StatusConfig("En douane", "text-orange-700", "bg-orange-50", "border-orange-200", "\U{1F6C3}")
    case OUT_FOR_DELIVERY => StatusConfig("En cours de livraison", "text-lime-700", "bg-lime-50", "border-lime-200", "\U{1F69A}")
    case DELIVERED => StatusConfig("Livr\U{E9}", "text-emerald-700", "bg-emerald-50", "border-emerald-200", "\U{1F389}")
    case EXCEPTION => StatusConfig("Exception", "text-red-700", "bg-red-50", "border-red-200", "\U{26A0}\U{FE0F}")
    case RETURNED => StatusConfig("Retourn\U{E9}", "text-pink-700", "bg-pink-50", "border-pink-200", "\U{21A9}\U{FE0F}")
    case CANCELLED => StatusConfig("Annul\U{E9}", "text-gray-700", "bg-gray-50", "border-gray-200", "\U{274C}")
  }

  /** `getStatusConfig(status)`: the table entry for a known status, the PENDING
      entry for any other string. */
  function GetStatusConfig(status: string): (c: StatusConfig)
    ensures forall s: Status :: Name(s) == status ==> c == Config(s)
    ensures (forall s: Status :: Name(s) != status) ==> c == Config(PENDING)
  {
    match Parse(status)
    case Some(s) => NameDetermines(s); Config(s)
    case None => Config(PENDING)
  }

  const BadgeBase := "inline-flex items-center gap-1.5 px-3 py-1 rounded-full text-sm font-medium border"

  /** `getStatusBadgeClasses(status)`: the fixed base classes, then the entry's text,
      background and border colours, separated by single spaces. */
  function GetStatusBadgeClasses(status: string): (r: string)
    ensures BadgeBase + " " <= r
    ensures r[|BadgeBase| + 1..] == GetStatusConfig(status).color + " " + GetStatusConfig(status).bgColor + " " +
                                    GetStatusConfig(status).borderColor
  {
    var config := GetStatusConfig(status);
    var head := BadgeBase + " ";
    var tail := config.color + " " + config.bgColor + " " + config.borderColor;
    assert (head + tail)[|head|..] == tail;
    head + tail
  }

  lemma NameInjective(a: Status, b: Status)
    ensures Name(a) == Name(b) ==> a == b
  {
  }

  /** Only one status has a given name. */
  lemma NameDetermines(s: Status)
    ensures forall t: Status :: Name(t) == Name(s) ==> t == s
  {
    forall t: Status | Name(t) == Name(s) ensures t == s {
      NameInjective(t, s);
    }
  }

  /** A status's own name selects its table entry: the badge shows that entry's
      colours after the base classes. */
  lemma KnownStatusBadge(s: Status)
    ensures GetStatusConfig(Name(s)) == Config(s)
    ensures GetStatusBadgeClasses(Name(s))
      == BadgeBase + " " + Config(s).color + " " + Config(s).bgColor + " " + Config(s).borderColor
  {
    ParseName(s);
  }

  /** Each status string is read back as the status it names. */
  lemma ParseName(s: Status)
    ensures Parse(Name(s)) == Some(s)
  {
    NameInjective(s, Parse(Name(s)).value);
  }

  /** The twelve labels are pairwise distinct, so a label identifies its status. */
  lemma LabelsDistinct(a: Status, b: Status)
    ensures a != b ==> Config(a).labelText != Config(b).labelText
  {
  }

  /** An unknown status is displayed exactly like PENDING. */
  lemma UnknownStatusLooksPending(status: string)
    requires Parse(status).None?
    ensures GetStatusConfig(status) == GetStatusConfig("PENDING")
    ensures GetStatusBadgeClasses(status) == GetStatusBadgeClasses("PENDING")
  {
    ParseName(PENDING);
  }
}
