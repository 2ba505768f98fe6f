/** The mock Express backend: a fixed restaurant table and the route handlers
    over it, each a pure function from the request's parameters to a status
    code and a body. */
module MockServer {
  import opened Common

  datatype Restaurant = Restaurant(
    id: string, name: string, cuisine: string, rating: real,
    deliveryTime: string, image: string, menu: seq<MenuItem>)

  /** A restaurant with its `menu` field stripped, as `/restaurants` lists it. */
  datatype Summary = Summary(
    id: string, name: string, cuisine: string, rating: real,
    deliveryTime: string, image: string)

  datatype Body =
    | Message(message: string)
    | Restaurants(list: seq<Summary>)
    | Menu(items: seq<MenuItem>)
    | Item(item: MenuItem)
    | Object(fields: map<string, Json>)

  datatype Response = Response(status: int, body: Body)

  const RestaurantNotFound := "Restaurant not found"
  const MenuItemNotFound := "Menu item not found"
  const ApiKeyMissing := "Google API Key is not configured on the server."
  const RouteParamsMissing := "Origin and destination are required."
  const RouteReady := "Route calculation endpoint ready. Implement actual API call."

  /** The restaurant origin every new order is given, whatever the body says. */
  const OriginLatitude: real := 13.7469
  const OriginLongitude: real := 100.5299
  const OriginJson := JObj(map["latitude" := JNum(OriginLatitude), "longitude" := JNum(OriginLongitude)])

  function Img(size: string, text: string): string
  {
    "https://via.placeholder.com/" + size + "?text=" + text
  }

  const Table: seq<Restaurant> := [
    Restaurant("1", "ร้านอร่อยยกนิ้ว", "อาหารตามสั่ง", 4.5, "25-35 min", Img("100", "Restaurant1"),
      [MenuItem("m1", "กะเพราหมูกรอบ", 60, Img("80", "Kaprao")),
       MenuItem("m2", "ข้าวผัด", 55, Img("80", "FriedRice")),
       MenuItem("m13", "ผัดซีอิ๊ว", 65, Img("80", "PadSeeEw"))]),
    Restaurant("2", "ส้มตำแซ่บนัว", "อาหารอีสาน", 4.8, "20-30 min", Img("100", "Restaurant2"),
      [MenuItem("m3", "ส้มตำไทย", 50, Img("80", "Somtum")),
       MenuItem("m4", "คอหมูย่าง", 80, Img("80", "GrilledPork")),
       MenuItem("m14", "ลาบหมู", 70, Img("80", "LarbMoo"))]),
    Restaurant("3", "พิซซ่าเตาถ่าน", "พิซซ่า", 4.2, "30-40 min", Img("100", "Restaurant3"),
      [MenuItem("m5", "พิซซ่าฮาวายเอี้ยน", 250, Img("80", "Hawaiian")),
       MenuItem("m6", "พิซซ่าเปปเปอโรนี", 230, Img("80", "Pepperoni")),
       MenuItem("m15", "พิซซ่ามาร์เกอริต้า", 200, Img("80", "Margherita"))]),
    Restaurant("4", "ก๋วยเตี๋ยวเรือรสเด็ด", "ก๋วยเตี๋ยว", 4.6, "15-25 min", Img("100", "Restaurant4"),
      [MenuItem("m7", "ก๋วยเตี๋ยวเรือหมู", 50, Img("80", "NoodlePork")),
       MenuItem("m8", "ก๋วยเตี๋ยวเรือเนื้อ", 60, Img("80", "NoodleBeef")),
       MenuItem("m16", "ลูกชิ้นลวกจิ้ม", 40, Img("80", "Meatballs"))]),
    Restaurant("5", "ข้าวขาหมูตรอกซุง", "ข้าวขาหมู", 4.7, "20-30 min", Img("100", "KhaoKhaMoo"),
      [MenuItem("m9", "ข้าวขาหมู พิเศษ", 70, Img("80", "KhaMooSpecial")),
       MenuItem("m10", "ข้าวคากิ", 80, Img("80", "Kaki"))]),
    Restaurant("6", "เจ๊โอว ข้าวต้มเป็ด", "ข้าวต้ม", 4.9, "30-45 min", Img("100", "JayOh"),
      [MenuItem("m11", "มาม่าโอ้โห", 150, Img("80", "MamaOHO")),
       MenuItem("m12", "ยำปูไข่ดอง", 300, Img("80", "SpicyCrab"))]),
    Restaurant("7", "ร้านอาหารทะเลสด", "อาหารทะเล", 4.3, "35-50 min", Img("100", "Seafood"),
      [MenuItem("m17", "กุ้งเผา", 400, Img("80", "GrilledShrimp")),
       MenuItem("m18", "ปลาหมึกย่าง", 250, Img("80", "GrilledSquid"))]),
    Restaurant("8", "เบอร์เกอร์อินดี้", "เบอร์เกอร์", 4.4, "20-30 min", Img("100", "Burger"),
      [MenuItem("m19", "เบอร์เกอร์เนื้อ", 120, Img("80", "BeefBurger")),
       MenuItem("m20", "เบอร์เกอร์ไก่กรอบ", 90, Img("80", "ChickenBurger"))])
  ]

  /** `xs.find(x => key(x) === id)`: the first element whose key is `id`, if any. */
  function FindById<T>(xs: seq<T>, key: T -> string, id: string): (r: Option<T>)
    ensures r.None? <==> forall k :: 0 <= k < |xs| ==> key(xs[k]) != id
    ensures r.Some? ==> exists k :: 0 <= k < |xs| && xs[k] == r.value && key(xs[k]) == id &&
                          forall j :: 0 <= j < k ==> key(xs[j]) != id
  {
    if |xs| == 0 then None
    else if key(xs[0]) == id then Some(xs[0])
    else
      var r := FindById(xs[1..], key, id);
      assert forall k :: 1 <= k < |xs| ==> xs[k] == xs[1..][k - 1];
      r
  }

  function RestaurantId(r: Restaurant): string { r.id }
  function MenuItemId(m: MenuItem): string { m.id }

  function Summarize(r: Restaurant): Summary
  {
    Summary(r.id, r.name, r.cuisine, r.rating, r.deliveryTime, r.image)
  }

  predicate HasId(table: seq<Restaurant>, id: string)
  {
    exists k :: 0 <= k < |table| && table[k].id == id
  }

  /** GET /restaurants: every restaurant, in table order, without its menu. */
  function ListRestaurants(table: seq<Restaurant>): (resp: Response)
    ensures resp.status == 200 && resp.body.Restaurants?
    ensures |resp.body.list| == |table|
    ensures forall k :: 0 <= k < |table| ==>
      var s, r := resp.body.list[k], table[k];
      s.id == r.id && s.name == r.name && s.cuisine == r.cuisine && s.rating == r.rating &&
      s.deliveryTime == r.deliveryTime && s.image == r.image
  {
    Response(200, Restaurants(seq(|table|, k requires 0 <= k < |table| => Summarize(table[k]))))
  }

  /** GET /restaurants/:id/menu. `restaurant.menu || []` is the menu itself,
      since every table entry has one and an array is always truthy. */
  function GetMenu(table: seq<Restaurant>, id: string): (resp: Response)
    ensures resp.status == 200 <==> HasId(table, id)
    ensures resp.status != 200 ==> resp == Response(404, Message(RestaurantNotFound))
    ensures resp.status == 200 ==>
      exists k :: 0 <= k < |table| && table[k].id == id && resp.body == Menu(table[k].menu)
  {
    match FindById(table, RestaurantId, id)
    case Some(r) => Response(200, Menu(r.menu))
    case None => Response(404, Message(RestaurantNotFound))
  }

  /** GET /restaurants/:restaurantId/menu/:menuItemId: a missing restaurant is
      reported before a missing item. */
  function GetMenuItem(table: seq<Restaurant>, restaurantId: string, menuItemId: string): (resp: Response)
    ensures !HasId(table, restaurantId) ==> resp == Response(404, Message(RestaurantNotFound))
    ensures HasId(table, restaurantId) ==>
      exists k :: 0 <= k < |table| && table[k].id == restaurantId &&
        (if exists j :: 0 <= j < |table[k].menu| && table[k].menu[j].id == menuItemId
         then resp.status == 200 && resp.body.Item? && resp.body.item in table[k].menu && resp.body.item.id == menuItemId
         else resp == Response(404, Message(MenuItemNotFound)))
  {
    match FindById(table, RestaurantId, restaurantId)
    case None => Response(404, Message(RestaurantNotFound))
    case Some(r) =>
      match FindById(r.menu, MenuItemId, menuItemId)
      case Some(item) => Response(200, Item(item))
      case None => Response(404, Message(MenuItemNotFound))
  }

  /** The order id the server assigns at time `now` (milliseconds). */
  function OrderId(now: nat): (id: string)
    ensures |id| > 5 && id[..5] == "mock-"
    ensures DigitsValue(id[5..]) == now && forall i :: 5 <= i < |id| ==> IsDigit(id[i])
  {
    assert ("mock-" + Decimal(now))[5..] == Decimal(now);
    "mock-" + Decimal(now)
  }

  /** The object `{ orderId, status: 'pending', ...body, restaurantOriginLocation }`:
      later keys override earlier ones, exactly as map union does. */
  function NewOrder(body: map<string, Json>, now: nat): (order: map<string, Json>)
    ensures order.Keys == body.Keys + {"orderId", "status", "restaurantOriginLocation"}
    ensures order["restaurantOriginLocation"] == OriginJson
    ensures "status" !in body ==> order["status"] == JStr("pending")
    ensures "orderId" !in body ==> order["orderId"] == JStr(OrderId(now))
    ensures forall k :: k in body && k != "restaurantOriginLocation" ==> order[k] == body[k]
  {
    map["orderId" := JStr(OrderId(now)), "status" := JStr("pending")] + body
      + map["restaurantOriginLocation" := OriginJson]
  }

  /** POST /orders: answers 201 with the new order object. */
  function PostOrder(body: map<string, Json>, now: nat): (resp: Response)
    ensures resp.status == 201 && resp.body.Object?
    ensures resp.body.fields.Keys == body.Keys + {"orderId", "status", "restaurantOriginLocation"}
    ensures resp.body.fields["restaurantOriginLocation"] == OriginJson
    ensures resp.body.fields["status"] == if "status" in body then body["status"] else JStr("pending")
    ensures resp.body.fields["orderId"] == if "orderId" in body then body["orderId"] else JStr(OrderId(now))
    ensures forall k :: k in body && k != "restaurantOriginLocation" ==> resp.body.fields[k] == body[k]
  {
    Response(201, Object(NewOrder(body, now)))
  }

  /** A query parameter counts as given when it is present and not the empty
      string (`!origin` is true for both `undefined` and `''`). */
  predicate Given(param: Option<string>)
  {
    param.Some? && param.value != ""
  }

  /** GET /calculate-route: the API key is checked before the parameters. */
  function CalculateRoute(apiKeyPresent: bool, origin: Option<string>, destination: Option<string>): (resp: Response)
    ensures !apiKeyPresent ==> resp == Response(500, Message(ApiKeyMissing))
    ensures apiKeyPresent && !(Given(origin) && Given(destination)) ==> resp == Response(400, Message(RouteParamsMissing))
    ensures resp.status == 200 <==> apiKeyPresent && Given(origin) && Given(destination)
    ensures resp.status == 200 ==>
              && resp.body.Object?
              && resp.body.fields == map["message" := JStr(RouteReady), "origin" := JStr(origin.value),
                                         "destination" := JStr(destination.value), "apiKeyPresent" := JBool(true)]
  {
    if !apiKeyPresent then Response(500, Message(ApiKeyMissing))
    else if !Given(origin) || !Given(destination) then Response(400, Message(RouteParamsMissing))
    else Response(200, Object(map["message" := JStr(RouteReady), "origin" := JStr(origin.value),
                                  "destination" := JStr(destination.value), "apiKeyPresent" := JBool(true)]))
  }

  /** The table's ids are "1" to "8", all different. */
  lemma TableIdsDistinct()
    ensures |Table| == 8
    ensures forall i, j :: 0 <= i < j < |Table| ==> Table[i].id != Table[j].id
    ensures forall k :: 0 <= k < |Table| ==> Table[k].id == Decimal(k + 1)
  {
  }

  /** Because ids are distinct, looking a restaurant up by id finds exactly the
      table entry with that id. */
  lemma LookupUnambiguous(k: nat)
    requires k < |Table|
    ensures FindById(Table, RestaurantId, Table[k].id) == Some(Table[k])
    ensures GetMenu(Table, Table[k].id) == Response(200, Menu(Table[k].menu))
  {
    TableIdsDistinct();
    var r := FindById(Table, RestaurantId, Table[k].id);
    assert r.Some?;
    var i :| 0 <= i < |Table| && Table[i] == r.value && Table[i].id == Table[k].id;
    assert i == k;
  }
}
