/**
 * The food handlers: the paged listing, creation behind a menu check with
 * the price rounded to cents, and the sparse update.
 */
module FoodController {
  import opened Wrappers
  import opened ObjectIds
  import opened Money
  import opened Documents
  import opened Aggregation
  import opened Database
  import opened Models
  import opened Paging

  /**
   * GetFoods: one listing document, the food count with the requested page
   * of foods under food_items; over an empty collection the handler indexes
   * an empty result and fails.
   */
  method GetFoods(db: Store, recordPerPageQuery: Option<int>, pageQuery: Option<int>, startIndexQuery: Option<int>)
    returns (resp: Response)
    ensures MatchAll(db.State().food) == [] ==> resp == Crash
    ensures var m := MatchAll(db.State().food);
      var recordPerPage: Positive :=
        if recordPerPageQuery.Some? && recordPerPageQuery.value >= 1 then recordPerPageQuery.value else DefaultRecordPerPage;
      var startIndex := if startIndexQuery.Some? then startIndexQuery.value else 0;
      m != [] ==> resp == Ok(Doc(Page(m, "food_items", startIndex, recordPerPage)))
  {
    var recordPerPage, page, startIndex := ListingParams(recordPerPageQuery, pageQuery, startIndexQuery);
    var allFoods := Listing(db.State().food, "food_items", startIndex, recordPerPage);
    ListingShape(db.State().food, "food_items", startIndex, recordPerPage);
    if allFoods == [] {
      return Crash;
    }
    resp := Ok(Doc(allFoods[0]));
  }

  /** A food as stored: a fresh id, the current time, and the price rounded to cents. */
  function StoredFood(food: Food, id: ObjectId, now: int): (f: Food)
    requires food.price.Some?
    ensures f.id == id && f.foodId == Hex(id) && f.createdAt == now && f.updatedAt == now
    ensures f.price == Some(ToFixed(food.price.value, 2))
    ensures f.name == food.name && f.foodImage == food.foodImage && f.menuId == food.menuId
  {
    food.(createdAt := now, updatedAt := now, id := id, foodId := Hex(id), price := Some(ToFixed(food.price.value, 2)))
  }

  /** The menu named by the food is not found; a nil menu id filters on null and finds no stored menu. */
  predicate MenuMissing(s: DbState, food: Food)
  {
    s.FindOne(MenuColl, "menu_id", OptStr(food.menuId)).None?
  }

  /**
   * CreateFood: a malformed or invalid food is refused, then the menu must
   * exist; only then is the food stamped and inserted with its price rounded
   * to two decimals (a nil price fails at the dereference).
   */
  method CreateFood(db: Store, body: Result<Food, string>, validate: Food -> Option<string>, id: ObjectId, now: int)
    returns (resp: Response)
    modifies db
    ensures body.Failure? ==> resp == BadRequest(body.error)
    ensures body.Success? && validate(body.value).Some? ==> resp == BadRequest(validate(body.value).value)
    ensures body.Success? && validate(body.value).None? && MenuMissing(old(db.State()), body.value)
      ==> resp == ServerError("menu was not found")
    ensures body.Success? && validate(body.value).None? && !MenuMissing(old(db.State()), body.value) && body.value.price.None?
      ==> resp == Crash
    ensures resp.Ok? <==> body.Success? && validate(body.value).None? && !MenuMissing(old(db.State()), body.value)
                          && body.value.price.Some?
    ensures resp.Ok? ==> resp.body == InsertedBody(id)
    ensures resp.Ok? ==> db.State() == old(db.State()).With(FoodColl, old(db.State()).food + [FoodDoc(StoredFood(body.value, id, now))])
    ensures !resp.Ok? ==> db.State() == old(db.State())
  {
    if body.Failure? {
      return BadRequest(body.error);
    }
    var food := body.value;
    var validationErr := validate(food);
    if validationErr.Some? {
      return BadRequest(validationErr.value);
    }
    var menu := db.State().FindOne(MenuColl, "menu_id", OptStr(food.menuId));
    if menu.None? {
      return ServerError("menu was not found");
    }
    food := food.(createdAt := now, updatedAt := now);
    food := food.(id := id);
    food := food.(foodId := Hex(food.id));
    if food.price.None? {
      return Crash;
    }
    var num := ToFixed(food.price.value, 2);
    food := food.(price := Some(num));
    db.InsertOne(FoodColl, FoodDoc(food));
    resp := Ok(InsertedBody(id));
  }

  /**
   * The `$set` list of UpdateFood: name, price (unrounded) and image when
   * given; when a menu id is given, the price again under "menu"; the stamp.
   */
  function FoodPatch(food: Food, now: int): Patch
  {
    FoodFields(food)
      + Entry("menu", if food.menuId.Some? then Some(OptNum(food.price)) else None)
      + Entry("updated_at", Some(Time(now)))
  }

  /** The entries of the food's own optional fields. */
  function FoodFields(food: Food): Patch
  {
    Entry("name", StrOpt(food.name))
      + Entry("price", NumOpt(food.price))
      + Entry("food_image", StrOpt(food.foodImage))
  }

  /** The keys present in an entry: the key iff the input is given. */
  function KeyIf(k: string, given: bool): set<string>
  {
    if given then {k} else {}
  }

  lemma FoodFieldsKeys(food: Food)
    ensures DistinctKeys(FoodFields(food))
    ensures PatchKeys(FoodFields(food))
      == KeyIf("name", food.name.Some?) + KeyIf("price", food.price.Some?) + KeyIf("food_image", food.foodImage.Some?)
  {
    var e1 := Entry("name", StrOpt(food.name));
    var e2 := Entry("price", NumOpt(food.price));
    assert [] + e1 == e1;
    AppendEntry([], "name", StrOpt(food.name));
    AppendEntry(e1, "price", NumOpt(food.price));
    AppendEntry(e1 + e2, "food_image", StrOpt(food.foodImage));
  }

  /**
   * Each key at most once, and exactly the keys whose input is given: name,
   * price and image when set, menu when a menu id is set, and always the stamp.
   */
  lemma FoodPatchKeys(food: Food, now: int)
    ensures DistinctKeys(FoodPatch(food, now))
    ensures PatchKeys(FoodPatch(food, now))
      == KeyIf("name", food.name.Some?) + KeyIf("price", food.price.Some?) + KeyIf("food_image", food.foodImage.Some?)
         + KeyIf("menu", food.menuId.Some?) + {"updated_at"}
  {
    FoodFieldsKeys(food);
    AppendEntries(FoodFields(food), "menu", if food.menuId.Some? then Some(OptNum(food.price)) else None,
                  "updated_at", Some(Time(now)));
  }

  /**
   * The values in the patch: the given name and image, the price as sent
   * (not rounded to cents, unlike CreateFood), that price again under "menu"
   * when a menu id is given, and the stamp last.
   */
  lemma FoodPatchValues(food: Food, now: int)
    ensures var p := FoodPatch(food, now);
      && (food.name.Some? ==> ("name", Str(food.name.value)) in p)
      && (food.price.Some? ==> ("price", Num(food.price.value)) in p)
      && (food.foodImage.Some? ==> ("food_image", Str(food.foodImage.value)) in p)
      && (food.menuId.Some? ==> ("menu", OptNum(food.price)) in p)
      && p[|p| - 1] == ("updated_at", Time(now))
  {
  }

  /** UpdateFood's menu check: a given menu id must name a stored menu. */
  predicate FoodMenuFails(s: DbState, food: Food)
  {
    food.menuId.Some? && s.FindOne(MenuColl, "menu_id", Str(food.menuId.value)).None?
  }

  /**
   * UpdateFood: with a malformed body or a menu id naming no menu nothing is
   * written; otherwise the patch is upserted on filter food_id.
   */
  method UpdateFood(db: Store, foodId: string, body: Result<Food, string>, now: int) returns (resp: Response)
    modifies db
    ensures body.Failure? ==> resp == BadRequest(body.error) && db.State() == old(db.State())
    ensures body.Success? && FoodMenuFails(old(db.State()), body.value)
      ==> resp == ServerError("menu was not found") && db.State() == old(db.State())
    ensures body.Success? && !FoodMenuFails(old(db.State()), body.value)
      ==> var u := Update(FoodColl, "food_id", Str(foodId), FoodPatch(body.value, now));
          resp == Ok(UpdatedBody(old(db.State()), u)) && db.State() == old(db.State()).Apply(u)
  {
    if body.Failure? {
      return BadRequest(body.error);
    }
    var food := body.value;
    var updateObj: Patch := [];
    updateObj := updateObj + Entry("name", StrOpt(food.name));
    updateObj := updateObj + Entry("price", NumOpt(food.price));
    updateObj := updateObj + Entry("food_image", StrOpt(food.foodImage));
    assert [] + Entry("name", StrOpt(food.name)) == Entry("name", StrOpt(food.name));
    assert updateObj == FoodFields(food);
    if food.menuId.Some? {
      var menu := db.State().FindOne(MenuColl, "menu_id", Str(food.menuId.value));
      if menu.None? {
        return ServerError("menu was not found");
      }
      updateObj := updateObj + [("menu", OptNum(food.price))];
    } else {
      assert updateObj == updateObj + Entry("menu", None);
    }
    food := food.(updatedAt := now);
    updateObj := updateObj + [("updated_at", Time(food.updatedAt))];
    var res := db.UpdateOne(Update(FoodColl, "food_id", Str(foodId), updateObj));
    resp := Ok(res);
  }
}
