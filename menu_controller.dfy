/**
 * The menu handlers: creation behind validation, and the dated update that
 * only proceeds when both ends of the menu's time span are given and the
 * span lies in the future.
 */
module MenuController {
  import opened Wrappers
  import opened ObjectIds
  import opened Documents
  import opened Database
  import opened Models

  /**
   * inTimeSpan: the span starts after the current time and ends after it
   * starts; the third argument takes no part in the decision.
   */
  function InTimeSpan(start: int, end: int, check: int, now: int): (b: bool)
    ensures b ==> now < end
  {
    start > now && end > start
  }

  /** The span test decides the same whatever instant is passed as `check`. */
  lemma InTimeSpanIgnoresCheck(start: int, end: int, check1: int, check2: int, now: int)
    ensures InTimeSpan(start, end, check1, now) == InTimeSpan(start, end, check2, now)
  {
  }

  /** A menu as stored: a fresh id, the current time, its hex id as menu_id. */
  function StoredMenu(menu: Menu, id: ObjectId, now: int): (m: Menu)
    ensures m.id == id && m.menuId == Hex(id) && m.createdAt == now && m.updatedAt == now
    ensures m.name == menu.name && m.category == menu.category
    ensures m.startDate == menu.startDate && m.endDate == menu.endDate
  {
    menu.(createdAt := now, updatedAt := now, id := id, menuId := Hex(id))
  }

  /**
   * CreateMenu: a malformed body or a menu failing validation is refused
   * before any stamping or store call; otherwise the stamped menu is inserted.
   */
  method CreateMenu(db: Store, body: Result<Menu, string>, validate: Menu -> Option<string>, id: ObjectId, now: int)
    returns (resp: Response)
    modifies db
    ensures body.Failure? ==> resp == BadRequest(body.error)
    ensures body.Success? && validate(body.value).Some? ==> resp == BadRequest(validate(body.value).value)
    ensures resp.Ok? <==> body.Success? && validate(body.value).None?
    ensures resp.Ok? ==> resp.body == InsertedBody(id)
    ensures resp.Ok? ==> db.State() == old(db.State()).With(MenuColl, old(db.State()).menu + [MenuDoc(StoredMenu(body.value, id, now))])
    ensures !resp.Ok? ==> db.State() == old(db.State())
  {
    if body.Failure? {
      return BadRequest(body.error);
    }
    var menu := body.value;
    var validationErr := validate(menu);
    if validationErr.Some? {
      return BadRequest(validationErr.value);
    }
    menu := menu.(createdAt := now, updatedAt := now);
    menu := menu.(id := id);
    menu := menu.(menuId := Hex(menu.id));
    db.InsertOne(MenuColl, MenuDoc(menu));
    resp := Ok(InsertedBody(id));
  }

  /** The entry of a string field: present iff the string is not empty. */
  function NonEmpty(s: string): (r: Option<Value>)
    ensures r.Some? <==> s != ""
    ensures r.Some? ==> r.value == Str(s)
  {
    if s != "" then Some(Str(s)) else None
  }

  /**
   * The `$set` list of UpdateMenu: both dates, then name and category when
   * not empty, then the stamp.
   */
  function MenuPatch(start: int, end: int, menu: Menu, now: int): Patch
  {
    [("start_date", Time(start)), ("end_date", Time(end))]
      + Entry("name", NonEmpty(menu.name))
      + Entry("category", NonEmpty(menu.category))
      + Entry("updated_at", Some(Time(now)))
  }

  /** The two dates that open the patch. */
  lemma MenuDatesKeys(start: int, end: int)
    ensures DistinctKeys([("start_date", Time(start)), ("end_date", Time(end))])
    ensures PatchKeys([("start_date", Time(start)), ("end_date", Time(end))]) == {"start_date", "end_date"}
  {
    var d: Patch := [("start_date", Time(start)), ("end_date", Time(end))];
    assert d[0].0 == "start_date" && d[1].0 == "end_date";
  }

  /**
   * Each key at most once; the dates and the stamp always, name and
   * category exactly when non-empty.
   */
  lemma MenuPatchKeys(start: int, end: int, menu: Menu, now: int)
    ensures DistinctKeys(MenuPatch(start, end, menu, now))
    ensures PatchKeys(MenuPatch(start, end, menu, now))
      == {"start_date", "end_date"} + (if menu.name != "" then {"name"} else {})
         + (if menu.category != "" then {"category"} else {}) + {"updated_at"}
  {
    var d: Patch := [("start_date", Time(start)), ("end_date", Time(end))];
    MenuDatesKeys(start, end);
    AppendEntries(d, "name", NonEmpty(menu.name), "category", NonEmpty(menu.category));
    var q := d + Entry("name", NonEmpty(menu.name)) + Entry("category", NonEmpty(menu.category));
    assert "updated_at" !in PatchKeys(q);
    AppendEntry(q, "updated_at", Some(Time(now)));
  }

  /** The dates come first, in that order, and the stamp last. */
  lemma MenuPatchOrder(start: int, end: int, menu: Menu, now: int)
    ensures var p := MenuPatch(start, end, menu, now);
      && |p| >= 3
      && p[0] == ("start_date", Time(start)) && p[1] == ("end_date", Time(end))
      && p[|p| - 1] == ("updated_at", Time(now))
  {
  }

  /**
   * UpdateMenu: without both dates the handler neither writes nor answers;
   * a span that fails inTimeSpan is refused; otherwise the patch is upserted
   * on filter menu_id.
   */
  method UpdateMenu(db: Store, menuId: string, body: Result<Menu, string>, now: int) returns (resp: Response)
    modifies db
    ensures body.Failure? ==> resp == BadRequest(body.error)
    ensures body.Success? && (body.value.startDate.None? || body.value.endDate.None?) ==> resp == NoResponse
    ensures body.Success? && body.value.startDate.Some? && body.value.endDate.Some?
              && !InTimeSpan(body.value.startDate.value, body.value.endDate.value, now, now)
      ==> resp == ServerError("kindly retype the time")
    ensures resp.Ok? <==> body.Success? && body.value.startDate.Some? && body.value.endDate.Some?
                          && InTimeSpan(body.value.startDate.value, body.value.endDate.value, now, now)
    ensures resp.Ok? ==>
      var u := Update(MenuColl, "menu_id", Str(menuId),
                      MenuPatch(body.value.startDate.value, body.value.endDate.value, body.value, now));
      resp.body == UpdatedBody(old(db.State()), u) && db.State() == old(db.State()).Apply(u)
    ensures !resp.Ok? ==> db.State() == old(db.State())
  {
    if body.Failure? {
      return BadRequest(body.error);
    }
    var menu := body.value;
    var filter := Str(menuId);
    var updateObj: Patch := [];
    if menu.startDate.Some? && menu.endDate.Some? {
      if !InTimeSpan(menu.startDate.value, menu.endDate.value, now, now) {
        return ServerError("kindly retype the time");
      }
      updateObj := updateObj + [("start_date", Time(menu.startDate.value))];
      updateObj := updateObj + [("end_date", Time(menu.endDate.value))];
      if menu.name != "" {
        updateObj := updateObj + [("name", Str(menu.name))];
      }
      if menu.category != "" {
        updateObj := updateObj + [("category", Str(menu.category))];
      }
      menu := menu.(updatedAt := now);
      updateObj := updateObj + [("updated_at", Time(menu.updatedAt))];
      assert updateObj == MenuPatch(menu.startDate.value, menu.endDate.value, body.value, now);
      var res := db.UpdateOne(Update(MenuColl, "menu_id", filter, updateObj));
      return Ok(res);
    }
    resp := NoResponse;
  }

  /**
   * An accepted update of a stored menu writes both dates into that menu,
   * in place: the stored span then starts after the time of the update and
   * ends after it starts, and no other menu changes.
   */
  lemma UpdateMenuWrites(s: DbState, menuId: string, menu: Menu, start: int, end: int, now: int)
    requires InTimeSpan(start, end, now, now)
    requires s.FindOne(MenuColl, "menu_id", Str(menuId)).Some?
    ensures var s' := s.Apply(Update(MenuColl, "menu_id", Str(menuId), MenuPatch(start, end, menu, now)));
      var i := FindFirst(s.menu, "menu_id", Str(menuId)).value;
      && |s'.menu| == |s.menu|
      && (forall j :: 0 <= j < |s.menu| && j != i ==> s'.menu[j] == s.menu[j])
      && "start_date" in s'.menu[i] && s'.menu[i]["start_date"] == Time(start)
      && "end_date" in s'.menu[i] && s'.menu[i]["end_date"] == Time(end)
      && now < start < end
  {
    var p := MenuPatch(start, end, menu, now);
    var u := Update(MenuColl, "menu_id", Str(menuId), p);
    assert s.Rows(MenuColl) == s.menu;
    assert s.Apply(u).Rows(MenuColl) == s.Apply(u).menu;
    assert DistinctKeys(p) by { MenuPatchKeys(start, end, menu, now); }
    assert p[0] == ("start_date", Time(start)) && p[1] == ("end_date", Time(end)) by {
      MenuPatchOrder(start, end, menu, now);
    }
    ApplyInPlace(s, u, "start_date", Time(start));
    ApplyInPlace(s, u, "end_date", Time(end));
  }
}
