/**
 The restaurant owner's dashboard: the restaurant list, the menu items of each
 restaurant keyed by its id, a loading flag and the two creation forms, with the
 load, create and delete handlers that update them.

 Each awaited SDK call is an `Outcome` parameter and each `window.confirm` a boolean.
 A handler that reloads without awaiting the reload (`loadRestaurants()`,
 `loadMenuItems(id)`) is modelled as running that reload to completion, so its outcomes
 are parameters too. The menu-item loads of the fan-out are applied in the order they are
 issued; for loads of restaurants with distinct ids, `FanOutOrderIrrelevant` shows that any
 other completion order gives the same map.
 */
module DashboardPage {
  import opened Sdk
  import opened Strings

  /** `menuItems`: restaurant id to that restaurant's items. */
  type ItemsMap = map<Id, seq<MenuItem>>

  /** The `newMenuItem` form; `price` is the text of the number input. */
  datatype MenuItemForm = MenuItemForm(name: string, description: string, price: string)

  const EmptyForm := MenuItemForm("", "", "")

  /** One `loadMenuItems(restaurant)` that has completed with `outcome`. */
  datatype Load = Load(restaurant: Id, outcome: Outcome<seq<MenuItem>>)

  /** The update a completed `loadMenuItems(id)` makes: on success the key `id` is replaced
      by exactly the response data, on failure nothing changes. */
  function SetItems(m: ItemsMap, id: Id, outcome: Outcome<seq<MenuItem>>): (r: ItemsMap)
    ensures r.Keys == m.Keys + (if outcome.Ok? then {id} else {})
    ensures outcome.Ok? ==> r[id] == outcome.data
    ensures forall k :: k in m && (k != id || outcome.Failed?) ==> r[k] == m[k]
  {
    match outcome
    case Ok(items) => m[id := items]
    case Failed(_) => m
  }

  /** Two loads for different restaurants commute. */
  lemma SetItemsCommute(m: ItemsMap, a: Load, b: Load)
    requires a.restaurant != b.restaurant
    ensures SetItems(SetItems(m, a.restaurant, a.outcome), b.restaurant, b.outcome)
         == SetItems(SetItems(m, b.restaurant, b.outcome), a.restaurant, a.outcome)
  {
  }

  /** The map after the given loads complete, in the given order. */
  function ApplyLoads(m: ItemsMap, loads: seq<Load>): (r: ItemsMap)
    ensures m.Keys <= r.Keys
    ensures forall k :: k in m && (forall i :: 0 <= i < |loads| ==> loads[i].restaurant != k || loads[i].outcome.Failed?)
                        ==> r[k] == m[k]
    decreases |loads|
  {
    if loads == [] then m
    else
      var last := loads[|loads| - 1];
      SetItems(ApplyLoads(m, loads[..|loads| - 1]), last.restaurant, last.outcome)
  }

  predicate DistinctIds(loads: seq<Load>) {
    forall i, j :: 0 <= i < j < |loads| ==> loads[i].restaurant != loads[j].restaurant
  }

  /** For loads of distinct restaurants, each key holds the data of its own successful load,
      and a key with no successful load keeps its old entry (or stays absent). */
  lemma {:induction false} ApplyLoadsAt(m: ItemsMap, loads: seq<Load>, k: Id)
    requires DistinctIds(loads)
    ensures forall i :: 0 <= i < |loads| && loads[i].restaurant == k && loads[i].outcome.Ok? ==>
              k in ApplyLoads(m, loads) && ApplyLoads(m, loads)[k] == loads[i].outcome.data
    ensures (forall i :: 0 <= i < |loads| ==> loads[i].restaurant != k || loads[i].outcome.Failed?) ==>
              (k in ApplyLoads(m, loads) <==> k in m)
    decreases |loads|
  {
    if loads != [] {
      var n := |loads| - 1;
      var front := loads[..n];
      assert forall i :: 0 <= i < n ==> front[i] == loads[i];
      ApplyLoadsAt(m, front, k);
    }
  }

  /** Loads of distinct restaurants hold each load at most once. */
  lemma {:induction false} DistinctOnce(loads: seq<Load>, x: Load)
    requires DistinctIds(loads)
    ensures multiset(loads)[x] <= 1
    decreases |loads|
  {
    if loads != [] {
      var n := |loads| - 1;
      var front := loads[..n];
      assert loads == front + [loads[n]];
      DistinctOnce(front, x);
      if loads[n] == x {
        assert x !in front by {
          forall i | 0 <= i < n ensures front[i] != x {
            assert loads[i].restaurant != loads[n].restaurant;
          }
        }
      }
    }
  }

  /** A reordering of loads of distinct restaurants is again a list of distinct restaurants. */
  lemma PermutationKeepsDistinct(a: seq<Load>, b: seq<Load>)
    requires DistinctIds(a) && multiset(a) == multiset(b)
    ensures DistinctIds(b)
  {
    forall i, j | 0 <= i < j < |b| ensures b[i].restaurant != b[j].restaurant {
      assert b[i] in multiset(a) && b[j] in multiset(a);
      if b[i] == b[j] {
        assert b == b[..j] + [b[j]] + b[j + 1..];
        assert b[..j][i] == b[i];
        assert multiset(b)[b[j]] >= 2;
        DistinctOnce(a, b[j]);
        assert false;
      } else {
        var i' :| 0 <= i' < |a| && a[i'] == b[i];
        var j' :| 0 <= j' < |a| && a[j'] == b[j];
        assert i' != j';
      }
    }
  }

  /** The fan-out's completion order does not matter: any reordering of loads for
      distinct restaurants leaves the same map. */
  lemma FanOutOrderIrrelevant(m: ItemsMap, a: seq<Load>, b: seq<Load>)
    requires DistinctIds(a) && multiset(a) == multiset(b)
    ensures ApplyLoads(m, a) == ApplyLoads(m, b)
  {
    PermutationKeepsDistinct(a, b);
    var ra, rb := ApplyLoads(m, a), ApplyLoads(m, b);
    forall k | true
      ensures (k in ra <==> k in rb) && (k in ra ==> ra[k] == rb[k])
    {
      ApplyLoadsAt(m, a, k);
      ApplyLoadsAt(m, b, k);
      if i :| 0 <= i < |a| && a[i].restaurant == k && a[i].outcome.Ok? {
        assert a[i] in multiset(b);
        var j :| 0 <= j < |b| && b[j] == a[i];
      } else {
        forall j | 0 <= j < |b| ensures b[j].restaurant != k || b[j].outcome.Failed? {
          assert b[j] in multiset(a);
        }
      }
    }
    assert ra == rb;
  }

  /** The loads `loadRestaurants` issues, one per returned restaurant, in order. */
  function FanOut(rs: seq<Restaurant>, outcomes: seq<Outcome<seq<MenuItem>>>): (loads: seq<Load>)
    requires |outcomes| == |rs|
    ensures |loads| == |rs|
    ensures forall i :: 0 <= i < |rs| ==> loads[i] == Load(rs[i].id, outcomes[i])
  {
    seq(|rs|, i requires 0 <= i < |rs| => Load(rs[i].id, outcomes[i]))
  }

  /** The find requests the loads issued, in order. */
  function IssuedFinds(loads: seq<Load>): (calls: seq<Call>)
    ensures |calls| == |loads|
    ensures forall i :: 0 <= i < |loads| ==> calls[i] == FindMenuItems(loads[i].restaurant)
  {
    seq(|loads|, i requires 0 <= i < |loads| => FindMenuItems(loads[i].restaurant))
  }

  lemma FanOutStep(m: ItemsMap, loads: seq<Load>, i: nat)
    requires i < |loads|
    ensures ApplyLoads(m, loads[..i + 1]) == SetItems(ApplyLoads(m, loads[..i]), loads[i].restaurant, loads[i].outcome)
    ensures IssuedFinds(loads[..i + 1]) == IssuedFinds(loads[..i]) + [FindMenuItems(loads[i].restaurant)]
  {
    assert loads[..i + 1][..i] == loads[..i];
  }

  /** The dashboard's state, with the requests it has sent so far. */
  datatype Page = Page(restaurants: seq<Restaurant>, menuItems: ItemsMap, isLoading: bool,
                       newRestaurantName: string, newMenuItem: MenuItemForm, sent: seq<Call>)

  /** `loadMenuItems(restaurantId)`, with the outcome of its find. */
  function LoadMenuItemsStep(p: Page, restaurantId: Id, found: Outcome<seq<MenuItem>>): Page {
    p.(menuItems := SetItems(p.menuItems, restaurantId, found), sent := p.sent + [FindMenuItems(restaurantId)])
  }

  /** Whether a reload's inputs match: one menu-item outcome per returned restaurant. */
  predicate FanOutMatches(found: Outcome<seq<Restaurant>>, itemLoads: seq<Outcome<seq<MenuItem>>>) {
    found.Ok? ==> |itemLoads| == |found.data|
  }

  /** `loadRestaurants()` for the owner `owner`, with the outcome of the restaurant find and of
      each menu-item find it issues. */
  function LoadRestaurantsStep(p: Page, owner: Id, found: Outcome<seq<Restaurant>>,
                               itemLoads: seq<Outcome<seq<MenuItem>>>): Page
    requires FanOutMatches(found, itemLoads)
  {
    var sent := p.sent + [FindRestaurants(owner)];
    match found
    case Ok(rs) =>
      var loads := FanOut(rs, itemLoads);
      p.(restaurants := rs, menuItems := ApplyLoads(p.menuItems, loads), isLoading := false,
         sent := sent + IssuedFinds(loads))
    case Failed(_) =>
      p.(isLoading := false, sent := sent)
  }

  /** `handleCreateRestaurant`: skipped when the name is blank; otherwise the untrimmed name is
      sent, and on success the field is cleared and the list reloaded. */
  function CreateRestaurantStep(p: Page, owner: Id, created: Outcome<Restaurant>,
                                reload: Outcome<seq<Restaurant>>, reloadItems: seq<Outcome<seq<MenuItem>>>): Page
    requires FanOutMatches(reload, reloadItems)
  {
    if IsBlank(p.newRestaurantName) then p
    else
      var p' := p.(sent := p.sent + [CreateRestaurant(p.newRestaurantName, owner)]);
      if created.Failed? then p'
      else LoadRestaurantsStep(p'.(newRestaurantName := ""), owner, reload, reloadItems)
  }

  /** `handleDeleteRestaurant(id)`: only a confirmed prompt sends the delete; on success the list is reloaded. */
  function DeleteRestaurantStep(p: Page, owner: Id, restaurantId: Id, confirmed: bool, deleted: Outcome<()>,
                                reload: Outcome<seq<Restaurant>>, reloadItems: seq<Outcome<seq<MenuItem>>>): Page
    requires FanOutMatches(reload, reloadItems)
  {
    if !confirmed then p
    else
      var p' := p.(sent := p.sent + [DeleteRestaurant(restaurantId)]);
      if deleted.Failed? then p' else LoadRestaurantsStep(p', owner, reload, reloadItems)
  }

  /** The guard of `handleCreateMenuItem`: a name that is not blank and a non-empty price text. */
  predicate MenuItemFormFilled(form: MenuItemForm) {
    !IsBlank(form.name) && form.price != ""
  }

  /** `handleCreateMenuItem(restaurantId)`: skipped unless the form is filled; on success the form
      is reset and that restaurant's items reloaded. */
  function CreateMenuItemStep(p: Page, owner: Id, restaurantId: Id, created: Outcome<MenuItem>,
                              reload: Outcome<seq<MenuItem>>): Page
  {
    if !MenuItemFormFilled(p.newMenuItem) then p
    else
      var f := p.newMenuItem;
      var p' := p.(sent := p.sent + [CreateMenuItem(f.name, f.description, f.price, restaurantId, owner)]);
      if created.Failed? then p'
      else LoadMenuItemsStep(p'.(newMenuItem := EmptyForm), restaurantId, reload)
  }

  /** `handleDeleteMenuItem(itemId, restaurantId)`: only a confirmed prompt sends the delete; on
      success that restaurant's items are reloaded. */
  function DeleteMenuItemStep(p: Page, itemId: Id, restaurantId: Id, confirmed: bool, deleted: Outcome<()>,
                              reload: Outcome<seq<MenuItem>>): Page
  {
    if !confirmed then p
    else
      var p' := p.(sent := p.sent + [DeleteMenuItem(itemId)]);
      if deleted.Failed? then p' else LoadMenuItemsStep(p', restaurantId, reload)
  }

  // ---- Properties of the handlers ----

  /** A per-restaurant load replaces exactly one key and nothing else; a failed one changes only the request log. */
  lemma LoadMenuItemsTouchesOneKey(p: Page, id: Id, found: Outcome<seq<MenuItem>>)
    ensures var q := LoadMenuItemsStep(p, id, found);
      && q.restaurants == p.restaurants && q.isLoading == p.isLoading
      && q.newRestaurantName == p.newRestaurantName && q.newMenuItem == p.newMenuItem
      && q.sent == p.sent + [FindMenuItems(id)]
      && (found.Ok? ==> q.menuItems == p.menuItems[id := found.data])
      && (found.Failed? ==> q.menuItems == p.menuItems)
  {
  }

  /** `loadRestaurants`: the list becomes the response or stays, the loading flag ends false, no
      menu-item key is removed, and one item find per returned restaurant is sent, in order. */
  lemma LoadRestaurantsEffect(p: Page, owner: Id, found: Outcome<seq<Restaurant>>,
                              itemLoads: seq<Outcome<seq<MenuItem>>>)
    requires FanOutMatches(found, itemLoads)
    ensures var q := LoadRestaurantsStep(p, owner, found, itemLoads);
      && !q.isLoading
      && q.restaurants == (if found.Ok? then found.data else p.restaurants)
      && p.menuItems.Keys <= q.menuItems.Keys
      && (found.Failed? ==> q.menuItems == p.menuItems)
      && q.newRestaurantName == p.newRestaurantName && q.newMenuItem == p.newMenuItem
      && q.sent[..|p.sent| + 1] == p.sent + [FindRestaurants(owner)]
      && |q.sent| == |p.sent| + 1 + (if found.Ok? then |found.data| else 0)
      && (found.Ok? ==> forall i :: 0 <= i < |found.data| ==>
            q.sent[|p.sent| + 1 + i] == FindMenuItems(found.data[i].id))
  {
  }

  /** For a returned list of restaurants with distinct ids, restaurant `i` ends with exactly the
      data of its own successful load, applied in issue order (and so in any order, by
      `FanOutOrderIrrelevant`). */
  lemma LoadRestaurantsItems(p: Page, owner: Id, rs: seq<Restaurant>,
                             itemLoads: seq<Outcome<seq<MenuItem>>>, i: nat)
    requires |itemLoads| == |rs| && i < |rs|
    requires forall a, b :: 0 <= a < b < |rs| ==> rs[a].id != rs[b].id
    requires itemLoads[i].Ok?
    ensures var q := LoadRestaurantsStep(p, owner, Ok(rs), itemLoads);
      rs[i].id in q.menuItems && q.menuItems[rs[i].id] == itemLoads[i].data
  {
    ApplyLoadsAt(p.menuItems, FanOut(rs, itemLoads), rs[i].id);
  }

  /** A blank restaurant name (empty or whitespace only) makes the create handler a no-op. */
  lemma BlankRestaurantNameIsNoOp(p: Page, owner: Id, created: Outcome<Restaurant>,
                                  reload: Outcome<seq<Restaurant>>, reloadItems: seq<Outcome<seq<MenuItem>>>)
    requires FanOutMatches(reload, reloadItems)
    requires AllWhitespace(p.newRestaurantName)
    ensures CreateRestaurantStep(p, owner, created, reload, reloadItems) == p
  {
    BlankIff(p.newRestaurantName);
  }

  /** A name with a non-whitespace character is sent untrimmed, with the owner's id; a failed
      create changes nothing but the request log, a successful one clears the field and reloads. */
  lemma CreateRestaurantSends(p: Page, owner: Id, created: Outcome<Restaurant>,
                              reload: Outcome<seq<Restaurant>>, reloadItems: seq<Outcome<seq<MenuItem>>>)
    requires FanOutMatches(reload, reloadItems)
    requires !AllWhitespace(p.newRestaurantName)
    ensures var q := CreateRestaurantStep(p, owner, created, reload, reloadItems);
      var p' := p.(sent := p.sent + [CreateRestaurant(p.newRestaurantName, owner)]);
      && (created.Failed? ==> q == p')
      && (created.Ok? ==> q == LoadRestaurantsStep(p'.(newRestaurantName := ""), owner, reload, reloadItems))
  {
    BlankIff(p.newRestaurantName);
  }

  /** A menu-item submit with a blank name or an empty price is a no-op. */
  lemma UnfilledMenuItemIsNoOp(p: Page, owner: Id, restaurantId: Id, created: Outcome<MenuItem>,
                               reload: Outcome<seq<MenuItem>>)
    requires AllWhitespace(p.newMenuItem.name) || p.newMenuItem.price == ""
    ensures CreateMenuItemStep(p, owner, restaurantId, created, reload) == p
  {
    BlankIff(p.newMenuItem.name);
  }

  /** A filled menu-item form is sent as typed, for that restaurant and owner; on success the form is
      reset and only that restaurant's key is reloaded; on failure only the request log changes. */
  lemma CreateMenuItemEffect(p: Page, owner: Id, restaurantId: Id, created: Outcome<MenuItem>,
                             reload: Outcome<seq<MenuItem>>)
    requires !AllWhitespace(p.newMenuItem.name) && p.newMenuItem.price != ""
    ensures var q := CreateMenuItemStep(p, owner, restaurantId, created, reload);
      var f := p.newMenuItem;
      var request := CreateMenuItem(f.name, f.description, f.price, restaurantId, owner);
      && (created.Failed? ==> q == p.(sent := p.sent + [request]))
      && (created.Ok? ==>
            && q.newMenuItem == EmptyForm
            && q.restaurants == p.restaurants && q.isLoading == p.isLoading
            && q.newRestaurantName == p.newRestaurantName
            && q.menuItems == SetItems(p.menuItems, restaurantId, reload)
            && q.sent == p.sent + [request, FindMenuItems(restaurantId)])
  {
    BlankIff(p.newMenuItem.name);
  }

  /** A declined confirmation changes nothing; a delete request is sent exactly when confirmed. */
  lemma DeletesNeedConfirmation(p: Page, owner: Id, restaurantId: Id, itemId: Id, confirmed: bool,
                                deleted: Outcome<()>, reload: Outcome<seq<Restaurant>>,
                                reloadItems: seq<Outcome<seq<MenuItem>>>, itemReload: Outcome<seq<MenuItem>>)
    requires FanOutMatches(reload, reloadItems)
    ensures var q := DeleteRestaurantStep(p, owner, restaurantId, confirmed, deleted, reload, reloadItems);
      && (!confirmed ==> q == p)
      && (confirmed <==> |q.sent| > |p.sent| && q.sent[|p.sent|] == DeleteRestaurant(restaurantId))
    ensures var q := DeleteMenuItemStep(p, itemId, restaurantId, confirmed, deleted, itemReload);
      && (!confirmed ==> q == p)
      && (confirmed <==> |q.sent| > |p.sent| && q.sent[|p.sent|] == DeleteMenuItem(itemId))
  {
  }

  /** After a confirmed delete: a failure changes only the request log; a successful restaurant
      delete reloads the list, a successful item delete reloads only that restaurant's items. */
  lemma ConfirmedDeleteEffect(p: Page, owner: Id, restaurantId: Id, itemId: Id, deleted: Outcome<()>,
                              reload: Outcome<seq<Restaurant>>, reloadItems: seq<Outcome<seq<MenuItem>>>,
                              itemReload: Outcome<seq<MenuItem>>)
    requires FanOutMatches(reload, reloadItems)
    ensures var q := DeleteRestaurantStep(p, owner, restaurantId, true, deleted, reload, reloadItems);
      var p' := p.(sent := p.sent + [DeleteRestaurant(restaurantId)]);
      && (deleted.Failed? ==> q == p')
      && (deleted.Ok? ==> q == LoadRestaurantsStep(p', owner, reload, reloadItems))
    ensures var q := DeleteMenuItemStep(p, itemId, restaurantId, true, deleted, itemReload);
      && (deleted.Failed? ==> q == p.(sent := p.sent + [DeleteMenuItem(itemId)]))
      && (deleted.Ok? ==>
            && q.restaurants == p.restaurants
            && q.menuItems == SetItems(p.menuItems, restaurantId, itemReload)
            && q.sent == p.sent + [DeleteMenuItem(itemId), FindMenuItems(restaurantId)])
  {
  }

  // ---- Rendering ----

  /** `menuItems[id] || []`. */
  function ItemsFor(m: ItemsMap, id: Id): (items: seq<MenuItem>)
    ensures id in m ==> items == m[id]
    ensures id !in m ==> items == []
  {
    if id in m then m[id] else []
  }

  /** `restaurant.description || 'No description'`. */
  function DescriptionText(r: Restaurant): (text: string)
    ensures text != []
    ensures r.description != [] ==> text == r.description
    ensures r.description == [] ==> text == "No description"
  {
    if r.description == "" then "No description" else r.description
  }

  /** One restaurant card: the restaurant, the description line shown under its name, and the
      items listed under it. */
  datatype Card = Card(restaurant: Restaurant, description: string, items: seq<MenuItem>)

  /** What the restaurant section shows. */
  datatype View = LoadingRestaurants | NoRestaurants | Cards(cards: seq<Card>)

  function Render(isLoading: bool, restaurants: seq<Restaurant>, m: ItemsMap): View {
    if isLoading then LoadingRestaurants
    else if restaurants == [] then NoRestaurants
    else Cards(seq(|restaurants|, i requires 0 <= i < |restaurants| =>
                     Card(restaurants[i], DescriptionText(restaurants[i]), ItemsFor(m, restaurants[i].id))))
  }

  /** Once loaded, a card is shown for each listed restaurant in list order, with that
      restaurant's entry of the map or no items when it has none. */
  lemma RenderCards(restaurants: seq<Restaurant>, m: ItemsMap, i: nat)
    requires i < |restaurants|
    ensures Render(false, restaurants, m).Cards?
    ensures |Render(false, restaurants, m).cards| == |restaurants|
    ensures Render(false, restaurants, m).cards[i].restaurant == restaurants[i]
    ensures Render(false, restaurants, m).cards[i].description ==
              (if restaurants[i].description == "" then "No description" else restaurants[i].description)
    ensures restaurants[i].id in m ==> Render(false, restaurants, m).cards[i].items == m[restaurants[i].id]
    ensures restaurants[i].id !in m ==> Render(false, restaurants, m).cards[i].items == []
  {
  }

  /** Map entries for restaurants that are not listed are never displayed: two maps that agree
      on the listed restaurants render the same. */
  lemma OrphanEntriesNeverShown(isLoading: bool, restaurants: seq<Restaurant>, m1: ItemsMap, m2: ItemsMap)
    requires forall i :: 0 <= i < |restaurants| ==>
               ItemsFor(m1, restaurants[i].id) == ItemsFor(m2, restaurants[i].id)
    ensures Render(isLoading, restaurants, m1) == Render(isLoading, restaurants, m2)
  {
    if !isLoading && restaurants != [] {
      var c1 := Render(isLoading, restaurants, m1).cards;
      var c2 := Render(isLoading, restaurants, m2).cards;
      assert forall i :: 0 <= i < |restaurants| ==> c1[i] == c2[i];
      assert c1 == c2;
    }
  }

  /** A load that completes for a restaurant no longer listed (deleted meanwhile) does not change the view. */
  lemma StaleLoadInvisible(isLoading: bool, restaurants: seq<Restaurant>, m: ItemsMap, id: Id,
                           outcome: Outcome<seq<MenuItem>>)
    requires forall i :: 0 <= i < |restaurants| ==> restaurants[i].id != id
    ensures Render(isLoading, restaurants, SetItems(m, id, outcome)) == Render(isLoading, restaurants, m)
  {
    OrphanEntriesNeverShown(isLoading, restaurants, SetItems(m, id, outcome), m);
  }

  /** The page component's state. */
  class Dashboard {
    const user: User
    var restaurants: seq<Restaurant>
    var menuItems: ItemsMap
    var isLoading: bool
    var newRestaurantName: string
    var newMenuItem: MenuItemForm
    /** The requests sent to the backend so far, in order. */
    var sent: seq<Call>

    function State(): Page
      reads this
    {
      Page(restaurants, menuItems, isLoading, newRestaurantName, newMenuItem, sent)
    }

    /** The initial state, before the mount effect runs `LoadRestaurants`. */
    constructor (user: User)
      ensures this.user == user
      ensures State() == Page([], map[], true, "", EmptyForm, [])
    {
      this.user := user;
      restaurants, menuItems, isLoading := [], map[], true;
      newRestaurantName, newMenuItem, sent := "", EmptyForm, [];
    }

    /** Typing in the restaurant-name input. */
    method EditRestaurantName(text: string)
      modifies this
      ensures State() == old(State()).(newRestaurantName := text)
    {
      newRestaurantName := text;
    }

    /** Typing in one of the menu-item inputs. */
    method EditMenuItem(form: MenuItemForm)
      modifies this
      ensures State() == old(State()).(newMenuItem := form)
    {
      newMenuItem := form;
    }

    method LoadMenuItems(restaurantId: Id, found: Outcome<seq<MenuItem>>)
      modifies this
      ensures State() == LoadMenuItemsStep(old(State()), restaurantId, found)
    {
      sent := sent + [FindMenuItems(restaurantId)];
      if found.Ok? {
        menuItems := menuItems[restaurantId := found.data];
      }
    }

    /** The `forEach` of `loadRestaurants`: one `loadMenuItems` per returned restaurant, in list order. */
    method LoadEachRestaurantsItems(data: seq<Restaurant>, itemLoads: seq<Outcome<seq<MenuItem>>>)
      requires |itemLoads| == |data|
      modifies this
      ensures State() == old(State()).(menuItems := ApplyLoads(old(menuItems), FanOut(data, itemLoads)),
                                       sent := old(sent) + IssuedFinds(FanOut(data, itemLoads)))
    {
      ghost var p0 := State();
      ghost var loads := FanOut(data, itemLoads);
      var i := 0;
      while i < |data|
        invariant 0 <= i <= |data|
        invariant menuItems == ApplyLoads(p0.menuItems, loads[..i])
        invariant sent == p0.sent + IssuedFinds(loads[..i])
        invariant restaurants == p0.restaurants && isLoading == p0.isLoading
        invariant newRestaurantName == p0.newRestaurantName && newMenuItem == p0.newMenuItem
      {
        LoadMenuItems(data[i].id, itemLoads[i]);
        FanOutStep(p0.menuItems, loads, i);
        i := i + 1;
      }
      assert loads[..|data|] == loads;
    }

    method LoadRestaurants(found: Outcome<seq<Restaurant>>, itemLoads: seq<Outcome<seq<MenuItem>>>)
      requires FanOutMatches(found, itemLoads)
      modifies this
      ensures State() == LoadRestaurantsStep(old(State()), user.id, found, itemLoads)
    {
      isLoading := true;
      sent := sent + [FindRestaurants(user.id)];
      if found.Ok? {
        restaurants := found.data;
        LoadEachRestaurantsItems(found.data, itemLoads);
      }
      isLoading := false;
    }

    method HandleCreateRestaurant(created: Outcome<Restaurant>, reload: Outcome<seq<Restaurant>>,
                                  reloadItems: seq<Outcome<seq<MenuItem>>>)
      requires FanOutMatches(reload, reloadItems)
      modifies this
      ensures State() == CreateRestaurantStep(old(State()), user.id, created, reload, reloadItems)
    {
      if IsBlank(newRestaurantName) {
        return;
      }
      sent := sent + [CreateRestaurant(newRestaurantName, user.id)];
      if created.Ok? {
        newRestaurantName := "";
        LoadRestaurants(reload, reloadItems);
      }
    }

    method HandleDeleteRestaurant(restaurantId: Id, confirmed: bool, deleted: Outcome<()>,
                                  reload: Outcome<seq<Restaurant>>, reloadItems: seq<Outcome<seq<MenuItem>>>)
      requires FanOutMatches(reload, reloadItems)
      modifies this
      ensures State() == DeleteRestaurantStep(old(State()), user.id, restaurantId, confirmed, deleted,
                                              reload, reloadItems)
    {
      if confirmed {
        sent := sent + [DeleteRestaurant(restaurantId)];
        if deleted.Ok? {
          LoadRestaurants(reload, reloadItems);
        }
      }
    }

    method HandleCreateMenuItem(restaurantId: Id, created: Outcome<MenuItem>, reload: Outcome<seq<MenuItem>>)
      modifies this
      ensures State() == CreateMenuItemStep(old(State()), user.id, restaurantId, created, reload)
    {
      var form := newMenuItem;
      if IsBlank(form.name) || form.price == "" {
        return;
      }
      sent := sent + [CreateMenuItem(form.name, form.description, form.price, restaurantId, user.id)];
      if created.Ok? {
        newMenuItem := EmptyForm;
        LoadMenuItems(restaurantId, reload);
      }
    }

    method HandleDeleteMenuItem(itemId: Id, restaurantId: Id, confirmed: bool, deleted: Outcome<()>,
                                reload: Outcome<seq<MenuItem>>)
      modifies this
      ensures State() == DeleteMenuItemStep(old(State()), itemId, restaurantId, confirmed, deleted, reload)
    {
      if confirmed {
        sent := sent + [DeleteMenuItem(itemId)];
        if deleted.Ok? {
          LoadMenuItems(restaurantId, reload);
        }
      }
    }
  }
}
