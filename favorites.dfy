/** The "favorites" command: the list of the user's favourite entities, taken
    from the values of the server's `favorites` object, and the item each
    favourite renders as: its icon by entity type (a star for an unknown type),
    its subtitle, and the page it opens. */
module Favorites {

  import opened Wrappers
  import Text

  /** One favourite entity. */
  datatype Favorite = Favorite(
    entityId: string,
    entityType: string,
    name: string,
    teamUid: string,
    team: string,
    url: string,
    counterId: Option<string>)

  /** The entity types that have an icon of their own. */
  const KnownTypes: seq<string> := ["Incident", "Oncall", "Escalation", "Service", "Integration"]

  /** `getIcon`: the icon file of an entity type, or none for an unknown type.
      Every known type's file is its own name in lower case followed by ".png". */
  function IconFor(entityType: string): (r: Option<string>)
    ensures r.Some? <==> entityType in KnownTypes
    ensures r.Some? ==> r.value == Text.Lower(entityType) + ".png"
  {
    assert Text.Lower("Incident") == "incident";
    assert Text.Lower("Oncall") == "oncall";
    assert Text.Lower("Escalation") == "escalation";
    assert Text.Lower("Service") == "service";
    assert Text.Lower("Integration") == "integration";
    match entityType
    case "Incident" => Some("incident.png")
    case "Oncall" => Some("oncall.png")
    case "Escalation" => Some("escalation.png")
    case "Service" => Some("service.png")
    case "Integration" => Some("integration.png")
    case _ => None
  }

  /** An item's icon: an image file, or the host's star icon. */
  datatype Icon = Image(file: string) | Star

  /** `getIcon(entityType) || Icon.Star`: the star exactly for unknown types. */
  function ItemIcon(entityType: string): (r: Icon)
    ensures r == Star <==> entityType !in KnownTypes
    ensures r.Image? ==> IconFor(entityType) == Some(r.file)
  {
    match IconFor(entityType)
    case Some(file) => Image(file)
    case None => Star
  }

  const AppBase: string := "https://app.spike.sh"

  /** What one favourite renders as. */
  datatype FavoriteItem = FavoriteItem(key: string, title: string, subtitle: Option<string>, icon: Icon, url: string)

  /** The item of one favourite: keyed by its entity id, titled with its name,
      subtitled with its counter id only when that is a non-empty string, and
      opening the app's base URL followed by the favourite's path. */
  function ItemOf(f: Favorite): (r: FavoriteItem)
    ensures r.key == f.entityId && r.title == f.name && r.icon == ItemIcon(f.entityType)
    ensures r.subtitle.Some? <==> Truthy(f.counterId)
    ensures r.subtitle.Some? ==> r.subtitle == f.counterId
    ensures |r.url| == |AppBase| + |f.url|
    ensures r.url[..|AppBase|] == AppBase && r.url[|AppBase|..] == f.url
  {
    FavoriteItem(f.entityId, f.name, if Truthy(f.counterId) then f.counterId else None, ItemIcon(f.entityType), AppBase + f.url)
  }

  /** One item per favourite, in list order, whatever the mix of entity types. */
  function Items(favorites: seq<Favorite>): (r: seq<FavoriteItem>)
    ensures |r| == |favorites|
    ensures forall k :: 0 <= k < |favorites| ==> r[k] == ItemOf(favorites[k])
  {
    if favorites == [] then [] else [ItemOf(favorites[0])] + Items(favorites[1..])
  }

  /** `Object.values` of the server's `favorites` object, given as its
      (key, value) entries in enumeration order. */
  function Values(entries: seq<(string, Favorite)>): (r: seq<Favorite>)
    ensures |r| == |entries|
    ensures forall k :: 0 <= k < |entries| ==> r[k] == entries[k].1
  {
    if entries == [] then [] else [entries[0].1] + Values(entries[1..])
  }

  /** The `favorites` state after the effect: the values of the response when
      the query returns; the initial empty list when it throws (the rejection
      is not handled). */
  function Loaded(reply: Awaited<seq<(string, Favorite)>>): (r: seq<Favorite>)
    ensures reply.Returned? ==> r == Values(reply.value)
    ensures reply.Threw? ==> r == []
  {
    match reply
    case Returned(entries) => Values(entries)
    case Threw(_) => []
  }

  /** The section as rendered: its subtitle reads back as the number of
      favourites, and it holds one item per entry of the response, in order. */
  lemma SectionOfResponse(entries: seq<(string, Favorite)>)
    ensures Text.CountOf(Text.ItemsSubtitle(|Loaded(Returned(entries))|)) == Some(|entries|)
    ensures |Items(Loaded(Returned(entries)))| == |entries|
    ensures forall k :: 0 <= k < |entries| ==> Items(Loaded(Returned(entries)))[k] == ItemOf(entries[k].1)
  {
  }
}
