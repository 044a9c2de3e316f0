/**
 * Feature permissions of the store-user tool dashboard (`DynamicDashboard`):
 * normalising the allowed-feature lists of the store and of the user, intersecting them,
 * deciding premium access, and gating which tool may be opened.
 *
 * The database rows, the results of `JSON.parse` and the two premium look-ups over
 * associated stores arrive as parameters.
 */
module FeatureAccess {
  import opened Wrappers
  import opened Text
  import opened Sequences

  /** One tile of the dashboard grid. */
  datatype Tool = Tool(key: string, name: string, isFreemium: bool)

  /** The `tools` table, in grid order. */
  const Tools: seq<Tool> := [
    Tool("sales", "Sales Tracker", true),
    Tool("products", "Products & Pricing", true),
    Tool("inventory", "Manage Inventory (Goods)", true),
    Tool("receipts", "Sales Receipts", false),
    Tool("returns", "Returned Items Tracker", false),
    Tool("expenses", "Expenses Tracker", true),
    Tool("unpaid supplies", "Unpaid Supplies", false),
    Tool("debts", "Debtors", true),
    Tool("sales_summary", "Sales Summary", true)
  ]

  /** `featureKeyMapping`: spellings used by store owners, mapped to this dashboard's keys. */
  const FeatureKeyMapping: map<string, string> := map[
    "products & pricing tracker" := "products",
    "products" := "products",
    "product tracker" := "products",
    "products tracker" := "products",
    "dynamic products" := "products",
    "suppliers & product tracker" := "suppliers",
    "suppliers" := "suppliers",
    "supplier" := "suppliers",
    "sales summary" := "sales_summary"
  ]

  /** `featureKeyMapping[f] || f`. */
  function MapKey(f: string): (g: string)
    ensures f in FeatureKeyMapping ==> g == FeatureKeyMapping[f]
    ensures f !in FeatureKeyMapping ==> g == f
  {
    if f in FeatureKeyMapping then FeatureKeyMapping[f] else f
  }

  /** Every value of the mapping is a key that maps to itself or is no key at all. */
  lemma MappingValuesAreFixed()
    ensures forall k :: k in FeatureKeyMapping ==> MapKey(FeatureKeyMapping[k]) == FeatureKeyMapping[k]
  {
    assert "products" in FeatureKeyMapping && FeatureKeyMapping["products"] == "products";
    assert "suppliers" in FeatureKeyMapping && FeatureKeyMapping["suppliers"] == "suppliers";
    assert "sales_summary" !in FeatureKeyMapping.Keys;
  }

  /** Mapping a key a second time changes nothing. */
  lemma MapKeyIdempotent(f: string)
    ensures MapKey(MapKey(f)) == MapKey(f)
  {
    MappingValuesAreFixed();
  }

  /** An element of a raw `allowed_features` array. */
  datatype RawItem =
    | Absent         // null or undefined: `item?.trim()` yields undefined
    | Text(s: string)
    | NonText        // a number, boolean or object: calling `trim` on it throws

  /** What one string item becomes: trimmed, lower-cased, then mapped. */
  function Canonical(s: string): string {
    MapKey(ToLower(Trim(s)))
  }

  /** A canonical feature is already a dashboard key: mapping it again changes nothing. */
  predicate IsCanonical(f: string) {
    f != "" && MapKey(f) == f
  }

  /**
   * `items.map(normalise).filter(Boolean)`: `None` when some item is not a string (the `map`
   * throws before anything is filtered), otherwise the canonical forms of the string items
   * in order, without the empty ones and without the missing ones.
   */
  function NormalizeList(items: seq<RawItem>): (r: Option<seq<string>>)
    ensures r.Some? ==> forall f :: f in r.value ==> IsCanonical(f)
    ensures r.Some? ==> |r.value| <= |items|
  {
    if items == [] then Some([])
    else
      match NormalizeList(items[1..])
      case None => None
      case Some(rest) =>
        match items[0]
        case NonText => None
        case Absent => Some(rest)
        case Text(s) =>
          var c := Canonical(s);
          MapKeyIdempotent(ToLower(Trim(s)));
          Some(if c == "" then rest else [c] + rest)
  }

  /** Item `i` is a string whose canonical form is `f`. */
  predicate CanonicalAt(items: seq<RawItem>, i: int, f: string) {
    0 <= i < |items| && items[i].Text? && Canonical(items[i].s) == f
  }

  /** Item `i` is neither a string nor missing. */
  predicate NonTextAt(items: seq<RawItem>, i: int) {
    0 <= i < |items| && items[i].NonText?
  }

  /** Normalising fails exactly when some item is neither a string nor missing. */
  lemma {:induction false} NormalizeListFails(items: seq<RawItem>)
    ensures NormalizeList(items).None? <==> exists i :: NonTextAt(items, i)
  {
    if items != [] {
      NormalizeListFails(items[1..]);
      assert NormalizeList(items).None? <==> items[0].NonText? || NormalizeList(items[1..]).None?;
      assert (exists i :: NonTextAt(items, i)) <==> items[0].NonText? || exists j :: NonTextAt(items[1..], j) by {
        if exists i :: NonTextAt(items, i) {
          var i :| NonTextAt(items, i);
          if i > 0 {
            assert NonTextAt(items[1..], i - 1);
          }
        }
        if exists j :: NonTextAt(items[1..], j) {
          var j :| NonTextAt(items[1..], j);
          assert NonTextAt(items, j + 1);
        }
        if items[0].NonText? {
          assert NonTextAt(items, 0);
        }
      }
    }
  }

  /** A string item with canonical form `f` is either the first item or one of the rest. */
  lemma CanonicalAtShift(items: seq<RawItem>, f: string)
    requires items != []
    ensures (exists i :: CanonicalAt(items, i, f)) <==>
            CanonicalAt(items, 0, f) || exists j :: CanonicalAt(items[1..], j, f)
  {
    if exists i :: CanonicalAt(items, i, f) {
      var i :| CanonicalAt(items, i, f);
      if i > 0 {
        assert CanonicalAt(items[1..], i - 1, f);
      }
    }
    if exists j :: CanonicalAt(items[1..], j, f) {
      var j :| CanonicalAt(items[1..], j, f);
      assert CanonicalAt(items, j + 1, f);
    }
  }

  /** Membership in a normalised list: exactly the non-empty canonical forms of the string items. */
  lemma {:induction false} NormalizeListMembers(items: seq<RawItem>, f: string)
    requires NormalizeList(items).Some?
    ensures f in NormalizeList(items).value <==> f != "" && exists i :: CanonicalAt(items, i, f)
  {
    if items != [] {
      var rest := NormalizeList(items[1..]).value;
      NormalizeListMembers(items[1..], f);
      CanonicalAtShift(items, f);
      match items[0]
      case Absent =>
        assert NormalizeList(items).value == rest;
      case Text(s) =>
        var c := Canonical(s);
        if c == "" {
          assert NormalizeList(items).value == rest;
        } else {
          assert NormalizeList(items).value == [c] + rest;
        }
    }
  }

  /** The `allowed_features` column as the database returns it. */
  datatype FeatureField =
    | FieldArray(items: seq<RawItem>)
    | FieldString(text: string, parsed: JsonResult)   // `parsed` is what `JSON.parse(text)` gives
    | FieldOther                                      // null, a number, an object

  /** The outcome of `JSON.parse` on a string column. */
  datatype JsonResult = Unparsable | ParsedArray(items: seq<RawItem>) | ParsedOther

  /** What the parsing branch leaves in `features`, and whether it reported invalid data. */
  datatype FieldOutcome =
    | Features(list: seq<string>, invalid: bool)
    | Crashed          // an exception escaped to the outer `catch`

  /**
   * The parsing branch for one `allowed_features` column: an array is normalised; `''` and
   * `'""'` give no features; any other string is parsed, and an unparsable text, a non-array
   * result, or an array with a non-string item (thrown inside the inner `try`) give no
   * features and report invalid data; any other value gives no features silently.
   */
  function ParseField(field: FeatureField): (o: FieldOutcome)
    ensures o.Features? ==> forall f :: f in o.list ==> IsCanonical(f)
  {
    match field
    case FieldArray(items) =>
      (match NormalizeList(items)
       case Some(list) => Features(list, false)
       case None => Crashed)
    case FieldString(text, parsed) =>
      if text == "" || text == "\"\"" then Features([], false)
      else
        (match parsed
         case ParsedArray(items) =>
           (match NormalizeList(items)
            case Some(list) => Features(list, false)
            case None => Features([], true))
         case _ => Features([], true))
    case FieldOther => Features([], false)
  }

  /** The branches of the parsing step, case by case. */
  lemma ParseFieldCases(field: FeatureField)
    ensures ParseField(field).Features? && ParseField(field).invalid ==>
      ParseField(field).list == [] && field.FieldString?
    ensures ParseField(field).Crashed? <==> field.FieldArray? && exists i :: NonTextAt(field.items, i)
    ensures field.FieldOther? ==> ParseField(field) == Features([], false)
    ensures field.FieldString? && (field.text == "" || field.text == "\"\"") ==> ParseField(field) == Features([], false)
    ensures field.FieldString? && field.text != "" && field.text != "\"\"" && !field.parsed.ParsedArray? ==>
      ParseField(field) == Features([], true)
    ensures field.FieldString? && field.text != "" && field.text != "\"\"" && field.parsed.ParsedArray? ==>
      ParseField(field).Features? &&
      ParseField(field).invalid == exists i :: NonTextAt(field.parsed.items, i)
  {
    if field.FieldArray? {
      NormalizeListFails(field.items);
    }
    if field.FieldString? && field.parsed.ParsedArray? {
      NormalizeListFails(field.parsed.items);
    }
  }

  /** The `premium` column of a store. */
  datatype PremiumField = PremiumBool(b: bool) | PremiumString(s: string) | PremiumOther

  /** `premium === true || (typeof premium === 'string' && premium.toLowerCase() === 'true')`. */
  predicate IsPremiumStore(p: PremiumField): (premium: bool)
    ensures p.PremiumBool? ==> (premium <==> p.b)
    ensures p.PremiumOther? ==> !premium
  {
    p == PremiumBool(true) || (p.PremiumString? && ToLower(p.s) == "true")
  }

  /** A premium string is "true" in any mix of upper and lower case, and nothing else. */
  lemma PremiumStringExactly(s: string)
    ensures IsPremiumStore(PremiumString(s)) <==>
      |s| == 4 && s[0] in {'t', 'T'} && s[1] in {'r', 'R'} && s[2] in {'u', 'U'} && s[3] in {'e', 'E'}
  {
    var l := ToLower(s);
    if |s| == 4 {
      assert l == [LowerChar(s[0]), LowerChar(s[1]), LowerChar(s[2]), LowerChar(s[3])];
    }
  }

  /** Effective features before the intersection: each store feature mapped once more. */
  function Remap(features: seq<string>): (r: seq<string>)
    ensures |r| == |features|
    ensures forall i :: 0 <= i < |features| ==> r[i] == MapKey(features[i])
  {
    if features == [] then [] else [MapKey(features[0])] + Remap(features[1..])
  }

  /** The re-mapping at the intersection is idempotent on normalised lists. */
  lemma RemapCanonical(features: seq<string>)
    requires forall f :: f in features ==> IsCanonical(f)
    ensures Remap(features) == features
  {
    forall i | 0 <= i < |features| ensures Remap(features)[i] == features[i] {
      assert features[i] in features;
    }
  }

  /**
   * `store.filter(f => user.includes(f))`: the store features, in store order and with their
   * repetitions, that the user is also allowed.
   */
  function Intersect(store: seq<string>, user: seq<string>): (r: seq<string>)
    ensures IsSubsequence(r, store)
    ensures forall f :: multiset(r)[f] == if f in user then multiset(store)[f] else 0
  {
    if store == [] then []
    else
      var rest := Intersect(store[1..], user);
      assert store == [store[0]] + store[1..];
      if store[0] in user then [store[0]] + rest else rest
  }

  /** The effective features are the store features the user also has, and only those. */
  lemma IntersectMembers(store: seq<string>, user: seq<string>, f: string)
    ensures f in Intersect(store, user) <==> f in store && f in user
  {
    var r := Intersect(store, user);
    assert f in r <==> multiset(r)[f] > 0;
    assert f in store <==> multiset(store)[f] > 0;
  }

  /** `storeData?.shop_name || fallback`. */
  function ShopNameOr(name: Option<string>, fallback: string): (n: string)
    ensures name.Some? && name.value != "" ==> n == name.value
    ensures name.None? || name.value == "" ==> n == fallback
  {
    if name.Some? && name.value != "" then name.value else fallback
  }

  /** The `stores` row: `shop_name, allowed_features, premium`. */
  datatype StoreRow = StoreRow(shopName: Option<string>, allowedFeatures: FeatureField, premium: PremiumField)

  /** The message shown in the error banner. */
  datatype Notice =
    | NoNotice
    | NoStoreAssigned
    | NotAuthenticated
    | StoreLoadFailed
    | InvalidStoreFeatures
    | UserLoadFailed
    | InvalidUserFeatures
    | PremiumUpsell
    | LoadFailed
    | NotEnabled(name: string)
    | PremiumOnly(name: string)

  /** `tools.find(t => t.key === key)`. */
  function FindTool(key: string): (t: Option<Tool>)
    ensures t.Some? ==> t.value in Tools && t.value.key == key
    ensures t.None? ==> forall u :: u in Tools ==> u.key != key
  {
    FindIn(Tools, key)
  }

  function FindIn(tools: seq<Tool>, key: string): (t: Option<Tool>)
    ensures t.Some? ==> t.value in tools && t.value.key == key
    ensures t.None? ==> forall u :: u in tools ==> u.key != key
  {
    if tools == [] then None
    else if tools[0].key == key then Some(tools[0])
    else FindIn(tools[1..], key)
  }

  /** What the dashboard renders. */
  datatype View =
    | Spinner               // still loading
    | DeniedView(name: string)
    | UpgradeView
    | ToolView(key: string)
    | Grid

  /**
   * The premium flag and the shop name, as `fetchAllowedFeatures` steps them: the store's own
   * `premium` column first; then, only while access is not yet premium, the look-up among the
   * user's associated stores; then, still only while not premium, the look-up among the
   * `user_access` stores. A look-up that finds a premium store sets the flag, which is never
   * cleared again, and takes that store's name unless it is empty.
   */
  method ResolvePremium(store: StoreRow, associatedPremium: Option<string>, accessPremium: Option<string>)
    returns (hasPremiumAccess: bool, fetchedShopName: string)
    ensures hasPremiumAccess <==> IsPremiumStore(store.premium) || associatedPremium.Some? || accessPremium.Some?
    ensures IsPremiumStore(store.premium) ==> fetchedShopName == ShopNameOr(store.shopName, "Store Owner")
    ensures !IsPremiumStore(store.premium) && associatedPremium.Some? ==>
      fetchedShopName == ShopNameOr(associatedPremium, ShopNameOr(store.shopName, "Store Owner"))
    ensures !IsPremiumStore(store.premium) && associatedPremium.None? ==>
      fetchedShopName == ShopNameOr(accessPremium, ShopNameOr(store.shopName, "Store Owner"))
  {
    hasPremiumAccess := false;
    fetchedShopName := ShopNameOr(store.shopName, "Store Owner");
    if IsPremiumStore(store.premium) {
      hasPremiumAccess := true;
    }
    if !hasPremiumAccess && associatedPremium.Some? {
      hasPremiumAccess := true;
      fetchedShopName := ShopNameOr(associatedPremium, fetchedShopName);
    }
    if !hasPremiumAccess && accessPremium.Some? {
      hasPremiumAccess := true;
      fetchedShopName := ShopNameOr(accessPremium, fetchedShopName);
    }
  }

  /** The state of the dashboard component. */
  class Dashboard {
    var shopName: string
    var activeTool: Option<string>
    var allowedFeatures: seq<string>
    var isLoading: bool
    var error: Notice
    var isPremium: bool

    /**
     * An open tool is always one of the tiles. A click on a tile opens only that tile's tool; the
     * tools' own components, which also receive `setActiveTool`, are assumed to do no more than
     * close themselves (see README, "Left out").
     */
    ghost predicate Valid()
      reads this`activeTool
    {
      activeTool.Some? ==> FindTool(activeTool.value).Some?
    }

    constructor ()
      ensures Valid()
      ensures shopName == "Store Owner" && activeTool == None && allowedFeatures == []
      ensures isLoading && error == NoNotice && !isPremium
    {
      shopName := "Store Owner";
      activeTool := None;
      allowedFeatures := [];
      isLoading := true;
      error := NoNotice;
      isPremium := false;
    }

    /** A tile is shown unlocked and may be opened. */
    predicate CanOpen(t: Tool): (ok: bool)
      reads this
      ensures ok ==> t.key in allowedFeatures
      ensures ok && !t.isFreemium ==> isPremium
      ensures t.key in allowedFeatures && (t.isFreemium || isPremium) ==> ok
    {
      (t.isFreemium || isPremium) && t.key in allowedFeatures
    }

    /** The lock overlay drawn over a tile; it shows exactly on the tiles that cannot be opened. */
    function ShowsLock(t: Tool): (locked: bool)
      reads this
      ensures locked <==> !CanOpen(t)
    {
      (!t.isFreemium && !isPremium) || t.key !in allowedFeatures
    }

    /** `renderContent`: which screen the dashboard shows. */
    function CurrentView(): (v: View)
      requires Valid()
      reads this
      ensures v.ToolView? ==> !isLoading && activeTool == Some(v.key) && CanOpen(FindTool(v.key).value)
      ensures !isLoading && activeTool.None? ==> v == Grid
    {
      if isLoading then Spinner
      else if activeTool.None? then Grid
      else
        var tool := FindTool(activeTool.value).value;
        if activeTool.value !in allowedFeatures then DeniedView(tool.name)
        else if !tool.isFreemium && !isPremium then UpgradeView
        else ToolView(activeTool.value)
    }

    /**
     * `fetchAllowedFeatures`. `hasStoreId`/`hasUserId` say whether local storage holds the ids;
     * `store`/`user` are the two row fetches (`None` on a query error); `associatedPremium` and
     * `accessPremium` are the two look-ups for a premium store among the user's associated stores
     * and among `user_access.store_ids`: `Some(shop name)` when such a store is found.
     */
    method FetchAllowedFeatures(hasStoreId: bool, hasUserId: bool, store: Option<StoreRow>,
                                user: Option<FeatureField>, associatedPremium: Option<string>,
                                accessPremium: Option<string>)
      // `activeTool` is outside the frame, so `Valid()`, which reads only it, is kept
      modifies this`shopName, this`allowedFeatures, this`isLoading, this`error, this`isPremium
      ensures !isLoading
      // early exits: nothing allowed, an error shown, name and premium flag untouched
      ensures EarlyExit(hasStoreId, hasUserId, store, user).Some? ==>
        && error == EarlyExit(hasStoreId, hasUserId, store, user).value
        && allowedFeatures == [] && shopName == old(shopName) && isPremium == old(isPremium)
      // a complete load
      ensures EarlyExit(hasStoreId, hasUserId, store, user).None? ==>
        var storeFeatures := ParseField(store.value.allowedFeatures);
        var userFeatures := ParseField(user.value);
        && allowedFeatures == Intersect(Remap(storeFeatures.list), userFeatures.list)
        && (isPremium <==> IsPremiumStore(store.value.premium) || associatedPremium.Some? || accessPremium.Some?)
        && (IsPremiumStore(store.value.premium) ==> shopName == ShopNameOr(store.value.shopName, "Store Owner"))
        && (!IsPremiumStore(store.value.premium) && associatedPremium.Some? ==>
              shopName == ShopNameOr(associatedPremium, ShopNameOr(store.value.shopName, "Store Owner")))
        && (!IsPremiumStore(store.value.premium) && associatedPremium.None? ==>
              shopName == ShopNameOr(accessPremium, ShopNameOr(store.value.shopName, "Store Owner")))
        && error == (if !isPremium then PremiumUpsell
                     else if userFeatures.invalid then InvalidUserFeatures
                     else if storeFeatures.invalid then InvalidStoreFeatures
                     else NoNotice)
    {
      isLoading := true;
      error := NoNotice;

      if !hasStoreId {
        error := NoStoreAssigned;
        allowedFeatures := [];
      } else if !hasUserId {
        error := NotAuthenticated;
        allowedFeatures := [];
      } else if store.None? {
        error := StoreLoadFailed;
        allowedFeatures := [];
      } else {
        var row := store.value;
        var storeParse := ParseField(row.allowedFeatures);
        if storeParse.Crashed? {
          // the `catch` block
          error := LoadFailed;
          allowedFeatures := [];
        } else {
          if storeParse.invalid {
            error := InvalidStoreFeatures;
          }
          if user.None? {
            error := UserLoadFailed;
            allowedFeatures := [];
          } else {
            var userParse := ParseField(user.value);
            if userParse.Crashed? {
              error := LoadFailed;
              allowedFeatures := [];
            } else {
              if userParse.invalid {
                error := InvalidUserFeatures;
              }
              ApplyFeatures(row, storeParse.list, userParse.list, associatedPremium, accessPremium);
            }
          }
        }
      }
      // the `finally` block
      isLoading := false;
    }

    /**
     * A load of the permissions (on mount, or by the "Refresh Permissions" button) followed by
     * the reset effect that the new `allowedFeatures` and `isLoading` trigger: an open tool that
     * is no longer allowed is closed, and one that still is stays open.
     */
    method RefreshPermissions(hasStoreId: bool, hasUserId: bool, store: Option<StoreRow>,
                              user: Option<FeatureField>, associatedPremium: Option<string>,
                              accessPremium: Option<string>)
      requires Valid()
      modifies this`shopName, this`allowedFeatures, this`isLoading, this`error, this`isPremium, this`activeTool
      ensures Valid() && !isLoading
      ensures EarlyExit(hasStoreId, hasUserId, store, user).Some? ==>
        && error == EarlyExit(hasStoreId, hasUserId, store, user).value
        && allowedFeatures == [] && shopName == old(shopName) && isPremium == old(isPremium)
      // a complete load
      ensures EarlyExit(hasStoreId, hasUserId, store, user).None? ==>
        var storeFeatures := ParseField(store.value.allowedFeatures);
        var userFeatures := ParseField(user.value);
        && allowedFeatures == Intersect(Remap(storeFeatures.list), userFeatures.list)
        && (isPremium <==> IsPremiumStore(store.value.premium) || associatedPremium.Some? || accessPremium.Some?)
        && (IsPremiumStore(store.value.premium) ==> shopName == ShopNameOr(store.value.shopName, "Store Owner"))
        && (!IsPremiumStore(store.value.premium) && associatedPremium.Some? ==>
              shopName == ShopNameOr(associatedPremium, ShopNameOr(store.value.shopName, "Store Owner")))
        && (!IsPremiumStore(store.value.premium) && associatedPremium.None? ==>
              shopName == ShopNameOr(accessPremium, ShopNameOr(store.value.shopName, "Store Owner")))
        && error == (if !isPremium then PremiumUpsell
                     else if userFeatures.invalid then InvalidUserFeatures
                     else if storeFeatures.invalid then InvalidStoreFeatures
                     else NoNotice)
      ensures activeTool.None? || activeTool.value in allowedFeatures
      ensures old(activeTool).Some? && old(activeTool).value in allowedFeatures ==> activeTool == old(activeTool)
      ensures old(activeTool).Some? && old(activeTool).value !in allowedFeatures ==>
        activeTool == None && CurrentView() == Grid
    {
      FetchAllowedFeatures(hasStoreId, hasUserId, store, user, associatedPremium, accessPremium);
      ResetEffect();
    }

    /**
     * The end of `fetchAllowedFeatures`'s `try` block, once both lists are parsed: the premium
     * decision, the remapped store list intersected with the user list, and the upgrade notice.
     */
    method ApplyFeatures(row: StoreRow, features: seq<string>, userFeatures: seq<string>,
                         associatedPremium: Option<string>, accessPremium: Option<string>)
      modifies this`shopName, this`allowedFeatures, this`error, this`isPremium
      ensures allowedFeatures == Intersect(Remap(features), userFeatures)
      ensures isPremium <==> IsPremiumStore(row.premium) || associatedPremium.Some? || accessPremium.Some?
      ensures IsPremiumStore(row.premium) ==> shopName == ShopNameOr(row.shopName, "Store Owner")
      ensures !IsPremiumStore(row.premium) && associatedPremium.Some? ==>
        shopName == ShopNameOr(associatedPremium, ShopNameOr(row.shopName, "Store Owner"))
      ensures !IsPremiumStore(row.premium) && associatedPremium.None? ==>
        shopName == ShopNameOr(accessPremium, ShopNameOr(row.shopName, "Store Owner"))
      ensures error == if !isPremium then PremiumUpsell else old(error)
    {
      var hasPremiumAccess, fetchedShopName := ResolvePremium(row, associatedPremium, accessPremium);

      var effective := Intersect(Remap(features), userFeatures);

      shopName := fetchedShopName;
      isPremium := hasPremiumAccess;
      allowedFeatures := effective;
      if !hasPremiumAccess {
        error := PremiumUpsell;
      }
    }

    /**
     * The error with which `fetchAllowedFeatures` gives up, in the order it checks: no store id,
     * no user id, a failed store query, a throwing store item, a failed user query, a throwing
     * user item; `None` when it reaches the end of its `try` block.
     */
    static function EarlyExit(hasStoreId: bool, hasUserId: bool, store: Option<StoreRow>,
                              user: Option<FeatureField>): (n: Option<Notice>)
      ensures n.Some? ==> n.value != NoNotice
      ensures n.None? <==> hasStoreId && hasUserId && store.Some? && user.Some? &&
                           ParseField(store.value.allowedFeatures).Features? && ParseField(user.value).Features?
      ensures !hasStoreId ==> n == Some(NoStoreAssigned)
      ensures hasStoreId && !hasUserId ==> n == Some(NotAuthenticated)
    {
      if !hasStoreId then Some(NoStoreAssigned)
      else if !hasUserId then Some(NotAuthenticated)
      else if store.None? then Some(StoreLoadFailed)
      else if ParseField(store.value.allowedFeatures).Crashed? then Some(LoadFailed)
      else if user.None? then Some(UserLoadFailed)
      else if ParseField(user.value).Crashed? then Some(LoadFailed)
      else None
    }

    /** The effect that closes an open tool once it is no longer allowed. */
    method ResetEffect()
      requires Valid()
      modifies this`activeTool
      ensures Valid()
      ensures !isLoading && old(activeTool).Some? && old(activeTool).value !in allowedFeatures ==> activeTool == None
      ensures isLoading || old(activeTool).None? || old(activeTool).value in allowedFeatures ==>
        activeTool == old(activeTool)
      ensures !isLoading ==> activeTool.None? || activeTool.value in allowedFeatures
    {
      if !isLoading && activeTool.Some? && activeTool.value !in allowedFeatures {
        activeTool := None;
      }
    }

    /** An open tool that may be opened is what the dashboard shows once loading is over. */
    lemma OpenToolIsShown()
      requires Valid() && !isLoading && activeTool.Some?
      requires CanOpen(FindTool(activeTool.value).value)
      ensures CurrentView() == ToolView(activeTool.value)
    {
      var tool := FindTool(activeTool.value).value;
      assert activeTool.value == tool.key;
    }

    /** `handleToolClick(key)`, called by a tile with its own key. */
    method HandleToolClick(key: string)
      requires Valid() && FindTool(key).Some?
      modifies this`activeTool, this`error
      ensures Valid()
      ensures CanOpen(FindTool(key).value) ==> activeTool == Some(key) && error == NoNotice
      ensures !CanOpen(FindTool(key).value) ==> activeTool == old(activeTool) && error != NoNotice
      ensures key !in allowedFeatures ==> error == NotEnabled(FindTool(key).value.name)
      ensures key in allowedFeatures && !CanOpen(FindTool(key).value) ==> error == PremiumOnly(FindTool(key).value.name)
      ensures CanOpen(FindTool(key).value) && !isLoading ==> CurrentView() == ToolView(key)
    {
      var tool := FindTool(key).value;
      if key !in allowedFeatures {
        error := NotEnabled(tool.name);
        return;
      }
      if !tool.isFreemium && !isPremium {
        error := PremiumOnly(tool.name);
        return;
      }
      activeTool := Some(key);
      error := NoNotice;
      if !isLoading {
        OpenToolIsShown();
      }
    }

    /** The Back button: `setActiveTool(null)`. */
    method CloseTool()
      modifies this`activeTool
      ensures activeTool == None
    {
      activeTool := None;
    }
  }
}
