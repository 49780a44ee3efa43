/** The REST convention both the router and the OpenAPI generator follow: the actions a
    resource offers, which of them change state, which of them target the collection or
    a single member, and the HTTP method each one is reached by. */
module Convention {
  import opened PyText

  datatype Action =
    | Create | Delete | Edit | Index | New | Show | Update
    | Search | SearchPost | NewSearch

  /** The action's name as the source spells it (also the handler method's name for the
      seven resource actions). */
  function ActionName(a: Action): string {
    match a
    case Create => "create"
    case Delete => "delete"
    case Edit => "edit"
    case Index => "index"
    case New => "new"
    case Show => "show"
    case Update => "update"
    case Search => "search"
    case SearchPost => "search_post"
    case NewSearch => "new_search"
  }

  /** The inverse of `ActionName`. */
  function ParseAction(name: string): (r: Option<Action>)
    ensures r.Some? ==> ActionName(r.value) == name
  {
    if name == "create" then Some(Create)
    else if name == "delete" then Some(Delete)
    else if name == "edit" then Some(Edit)
    else if name == "index" then Some(Index)
    else if name == "new" then Some(New)
    else if name == "show" then Some(Show)
    else if name == "update" then Some(Update)
    else if name == "search" then Some(Search)
    else if name == "search_post" then Some(SearchPost)
    else if name == "new_search" then Some(NewSearch)
    else None
  }

  /** Action names identify actions. */
  lemma {:induction false} ParseActionName(a: Action)
    ensures ParseAction(ActionName(a)) == Some(a)
  {
    match a
    case Create =>
    case Delete =>
    case Edit =>
    case Index =>
    case New =>
    case Show =>
    case Update =>
    case Search =>
      assert ActionName(a) == "search";
    case SearchPost =>
      assert ActionName(a) == "search_post";
    case NewSearch =>
      assert ActionName(a) == "new_search";
  }

  /** `RESOURCE_ACTIONS`, in the order both the router and the generator visit them. */
  const ResourceActions: seq<Action> := [Create, Delete, Edit, Index, New, Show, Update]

  /** `MUTATING_ACTIONS` */
  predicate IsMutating(a: Action) {
    a == Create || a == Delete || a == Edit || a == New || a == Update
  }

  /** `COLLECTION_TARGETING` */
  predicate IsCollectionTargeting(a: Action) {
    a == Create || a == Index
  }

  /** `MEMBER_TARGETING` */
  predicate IsMemberTargeting(a: Action) {
    a == Delete || a == Show || a == Update
  }

  const DefaultMethod: string := "GET"

  /** `ACTIONS2METHODS.get(action, DEFAULT_METHOD)` */
  function HttpMethodOf(a: Action): (m: string)
    ensures m == "POST" <==> a == Create
    ensures m == "DELETE" <==> a == Delete
    ensures m == "PUT" <==> a == Update
    ensures m == DefaultMethod <==> a != Create && a != Delete && a != Update
  {
    match a
    case Create => "POST"
    case Delete => "DELETE"
    case Update => "PUT"
    case _ => DefaultMethod
  }

  /** The seven resource actions are distinct; exactly `index` and `show` among them leave
      state unchanged; `new` and `edit` are the only ones neither collection- nor
      member-targeting, and no action is both. */
  lemma ResourceActionsPartition()
    ensures forall i, j :: 0 <= i < j < |ResourceActions| ==> ResourceActions[i] != ResourceActions[j]
    ensures forall a :: a in ResourceActions ==> (!IsMutating(a) <==> a == Index || a == Show)
    ensures forall a :: a in ResourceActions ==>
      (!IsCollectionTargeting(a) && !IsMemberTargeting(a) <==> a == New || a == Edit)
    ensures forall a :: !(IsCollectionTargeting(a) && IsMemberTargeting(a))
    ensures forall a :: (IsMutating(a) || IsCollectionTargeting(a) || IsMemberTargeting(a)) ==> a in ResourceActions
  {
  }
}
