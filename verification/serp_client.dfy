/**
 * The map-search client of the scripts pipeline: `_process_result`, which
 * turns one provider result into the canonical Salesforce-shaped fields, and
 * the result selection of `search_google_maps` over the response dict. The
 * HTTP request is a parameter (`response`), and so is today's date.
 */
module SerpClient {
  import opened Py

  const Bookings: string := "HasGoogleAcceptBookingsExtension__c"
  const Delivery: string := "HasGoogleDeliveryExtension__c"
  const Takeout: string := "HasGoogleTakeoutExtension__c"
  const Prospection: string := "Prospection_Status__c"

  /** The fields of every mapped record. */
  const MappedFields: set<string> := {
    "Google_Place_ID__c", "Google_Data_ID__c", "Google_Type__c", "Google_Rating__c", "Google_Reviews__c",
    "Google_Price__c", "Google_Updated_Date__c", "Title", "Address", Prospection, Bookings, Delivery, Takeout,
    "Google_Thumbnail_URL__c", "Google_URL__c"}

  /** The mapped record before any flag is inferred: fields copied from the result, flags `False`, status `None`. */
  function Mapped(d: Dict, restaurantType: Value, today: string): (m: Dict)
    ensures m.Keys == MappedFields
  {
    map[
      "Google_Place_ID__c" := Get(d, "place_id"),
      "Google_Data_ID__c" := Get(d, "data_id"),
      "Google_Type__c" := restaurantType,
      "Google_Rating__c" := Get(d, "rating"),
      "Google_Reviews__c" := Get(d, "reviews"),
      "Google_Price__c" := Get(d, "price"),
      "Google_Updated_Date__c" := VStr(today),
      "Title" := Get(d, "title"),
      "Address" := Get(d, "address"),
      Prospection := VNone,
      Bookings := VBool(false),
      Delivery := VBool(false),
      Takeout := VBool(false),
      "Google_Thumbnail_URL__c" := Get(d, "thumbnail"),
      "Google_URL__c" := Get(d, "website")]
  }

  /** `"booking" in str(ext).lower() or "reserve" in str(ext).lower()` */
  predicate MentionsBooking(render: Value -> string, ext: Value) {
    var t := Lower(Str(render, ext));
    HasSubstring(t, "booking") || HasSubstring(t, "reserve")
  }

  /** Whether some element visited by `for ext in exts` mentions a booking; iterating a non-iterable raises. */
  function AnyMentionsBooking(render: Value -> string, exts: Value): Result<bool> {
    match exts
    case VList(items) => Ok(exists i :: 0 <= i < |items| && MentionsBooking(render, items[i]))
    case VStr(s) => Ok(exists i :: 0 <= i < |s| && MentionsBooking(render, VStr([s[i]])))
    case VDict(m) => Ok(exists k :: k in m && MentionsBooking(render, VStr(k)))
    case _ => Raised("'" + TypeName(exts) + "' object is not iterable")
  }

  /** The type field: a list is joined with ", ", anything else passes through. */
  function TypeField(t: Value): Result<Value> {
    if t.VList? then
      match JoinValues(", ", t.items)
      case Ok(s) => Ok(VStr(s))
      case Raised(msg) => Raised(msg)
    else Ok(t)
  }

  /** The delivery and takeout flags inferred from `service_options`. */
  function ServiceFlags(render: Value -> string, options: Value): (r: (Value, Value))
    ensures options.VList? ==>
              var items := options.items;
              r == (VBool(exists i :: 0 <= i < |items| && Lower(Str(render, items[i])) == "delivery"),
                    VBool(exists i :: 0 <= i < |items| && (Lower(Str(render, items[i])) == "takeout" ||
                                                             Lower(Str(render, items[i])) == "pickup")))
    ensures options.VDict? ==> r.0 == GetOr(options.entries, "delivery", VBool(false)) && r.1 == GetOr(options.entries, "takeout", VBool(false))
    ensures !options.VList? && !options.VDict? ==> r == (VBool(false), VBool(false))
  {
    match options
    case VDict(m) => (GetOr(m, "delivery", VBool(false)), GetOr(m, "takeout", VBool(false)))
    case VList(items) =>
      var names := seq(|items|, i requires 0 <= i < |items| => Lower(Str(render, items[i])));
      NamedOption(render, items, names, "delivery");
      NamedOption(render, items, names, "takeout");
      NamedOption(render, items, names, "pickup");
      (VBool("delivery" in names), VBool("takeout" in names || "pickup" in names))
    case _ => (VBool(false), VBool(false))
  }

  /** An option name is among the lowered texts exactly when some item lowers to it. */
  lemma NamedOption(render: Value -> string, items: seq<Value>, names: seq<string>, name: string)
    requires names == seq(|items|, i requires 0 <= i < |items| => Lower(Str(render, items[i])))
    ensures name in names <==> exists i :: 0 <= i < |items| && Lower(Str(render, items[i])) == name
  {
    if exists i :: 0 <= i < |items| && Lower(Str(render, items[i])) == name {
      var i :| 0 <= i < |items| && Lower(Str(render, items[i])) == name;
      assert names[i] == name;
    }
  }

  /** The closure label for an operating status. */
  function ClosureLabel(status: Value): Value {
    if status == VStr("PERMANENTLY_CLOSED") then VStr("Permanently Closed")
    else if status == VStr("TEMPORARILY_CLOSED") then VStr("Temporarily Closed")
    else VNone
  }

  /** The record with its inferred booking flag, service flags and closure label. */
  function Assemble(base: Dict, booked: bool, flags: (Value, Value), closure: Value): Dict {
    base[Bookings := VBool(booked)][Delivery := flags.0][Takeout := flags.1][Prospection := closure]
  }

  lemma UpdateUnchanged(m: Dict, k: string, v: Value)
    requires k in m && m[k] == v
    ensures m[k := v] == m
  {
  }

  /** Whether the result's extensions mention a booking; a missing or falsy `extensions` mentions nothing. */
  function ExtensionsMention(render: Value -> string, d: Dict): Result<bool> {
    var exts := GetOr(d, "extensions", VList([]));
    if Truthy(exts) then AnyMentionsBooking(render, exts) else Ok(false)
  }

  /** What `_process_result(result)` returns, or the exception it raises. */
  function MapResult(render: Value -> string, today: string, result: Value): Result<Dict> {
    if !result.VDict? then Raised("'" + TypeName(result) + "' object has no attribute 'get'")
    else MapFields(render, today, result.entries)
  }

  function MapFields(render: Value -> string, today: string, d: Dict): Result<Dict> {
    match TypeField(Get(d, "type"))
    case Raised(msg) => Raised(msg)
    case Ok(restaurantType) => Flagged(render, today, d, restaurantType)
  }

  /** The record once its type is known: the booking flag (which may raise), the service flags and the closure label. */
  function Flagged(render: Value -> string, today: string, d: Dict, restaurantType: Value): Result<Dict> {
    match ExtensionsMention(render, d)
    case Raised(msg) => Raised(msg)
    case Ok(found) =>
      Ok(Assemble(Mapped(d, restaurantType, today), Truthy(Get(d, "reserve_a_table")) || found,
                  ServiceFlags(render, GetOr(d, "service_options", VDict(map[]))),
                  ClosureLabel(Get(d, "operating_status"))))
  }

  /** The elements `for ext in exts` visits, for an iterable `exts`. */
  method Iterate(exts: Value) returns (items: seq<Value>)
    requires exts.VList? || exts.VStr? || exts.VDict?
    ensures exts.VList? ==> items == exts.items
    ensures exts.VStr? ==> |items| == |exts.s| && forall i :: 0 <= i < |items| ==> items[i] == VStr([exts.s[i]])
    ensures exts.VDict? ==> forall x :: x in items <==> x.VStr? && x.s in exts.entries
  {
    match exts {
      case VList(xs) => items := xs;
      case VStr(s) => items := seq(|s|, i requires 0 <= i < |s| => VStr([s[i]]));
      case VDict(m) =>
        var ks := KeysOf(m);
        items := seq(|ks|, i requires 0 <= i < |ks| => VStr(ks[i]));
        assert forall x :: x in items ==> x.VStr? && x.s in ks;
        forall x: Value | x.VStr? && x.s in m
          ensures x in items
        {
          var i :| 0 <= i < |ks| && ks[i] == x.s;
          assert items[i] == x;
        }
    }
  }

  /** `for ext in extensions`: whether some visited element mentions a booking. */
  method ScanExtensions(render: Value -> string, items: seq<Value>) returns (found: bool)
    ensures found <==> exists j :: 0 <= j < |items| && MentionsBooking(render, items[j])
  {
    found := false;
    for i := 0 to |items|
      invariant found <==> exists j :: 0 <= j < i && MentionsBooking(render, items[j])
    {
      if MentionsBooking(render, items[i]) {
        found := true;
      }
    }
  }

  /** Scanning the elements `Iterate` lists decides `AnyMentionsBooking`. */
  lemma VisitedElementsDecide(render: Value -> string, exts: Value, items: seq<Value>)
    requires exts.VList? || exts.VStr? || exts.VDict?
    requires exts.VList? ==> items == exts.items
    requires exts.VStr? ==> |items| == |exts.s| && forall i :: 0 <= i < |items| ==> items[i] == VStr([exts.s[i]])
    requires exts.VDict? ==> forall x :: x in items <==> x.VStr? && x.s in exts.entries
    ensures AnyMentionsBooking(render, exts) == Ok(exists j :: 0 <= j < |items| && MentionsBooking(render, items[j]))
  {
    var found := exists j :: 0 <= j < |items| && MentionsBooking(render, items[j]);
    if exts.VStr? {
    } else if exts.VDict? {
      if found {
        var j :| 0 <= j < |items| && MentionsBooking(render, items[j]);
        assert items[j] in items;
      }
      if exists k :: k in exts.entries && MentionsBooking(render, VStr(k)) {
        var k :| k in exts.entries && MentionsBooking(render, VStr(k));
        assert VStr(k) in items;
        var j :| 0 <= j < |items| && items[j] == VStr(k);
      }
    }
  }

  /** Steps 1 and 2 of the flag inference: a reservation link, then every visited extension. */
  method MarkBookings(render: Value -> string, d: Dict, mapped: Dict) returns (r: Result<Dict>)
    requires Bookings in mapped && mapped[Bookings] == VBool(false)
    ensures ExtensionsMention(render, d).Raised? ==> r == Raised(ExtensionsMention(render, d).message)
    ensures ExtensionsMention(render, d).Ok? ==>
              r == Ok(mapped[Bookings := VBool(Truthy(Get(d, "reserve_a_table")) || ExtensionsMention(render, d).value)])
  {
    var m := mapped;
    if Truthy(Get(d, "reserve_a_table")) {
      m := m[Bookings := VBool(true)];
    } else {
      UpdateUnchanged(mapped, Bookings, VBool(false));
    }
    ghost var reserved := Truthy(Get(d, "reserve_a_table"));
    assert m == mapped[Bookings := VBool(reserved)];
    var extensions := GetOr(d, "extensions", VList([]));
    if Truthy(extensions) {
      if !(extensions.VList? || extensions.VStr? || extensions.VDict?) {
        return Raised("'" + TypeName(extensions) + "' object is not iterable");
      }
      var items := Iterate(extensions);
      var found := ScanExtensions(render, items);
      if found {
        m := m[Bookings := VBool(true)];
      }
      VisitedElementsDecide(render, extensions, items);
      assert ExtensionsMention(render, d) == Ok(found);
      assert m == mapped[Bookings := VBool(reserved || found)];
    } else {
      assert ExtensionsMention(render, d) == Ok(false);
    }
    return Ok(m);
  }

  /** Step 3: delivery and takeout from a dict or a list of service options; any other value leaves both `False`. */
  method MarkServiceOptions(render: Value -> string, d: Dict, mapped: Dict) returns (m: Dict)
    requires Delivery in mapped && mapped[Delivery] == VBool(false)
    requires Takeout in mapped && mapped[Takeout] == VBool(false)
    ensures var flags := ServiceFlags(render, GetOr(d, "service_options", VDict(map[])));
            m == mapped[Delivery := flags.0][Takeout := flags.1]
  {
    m := mapped;
    var options := GetOr(d, "service_options", VDict(map[]));
    if options.VDict? {
      m := m[Delivery := GetOr(options.entries, "delivery", VBool(false))];
      m := m[Takeout := GetOr(options.entries, "takeout", VBool(false))];
    } else if options.VList? {
      var names := seq(|options.items|, i requires 0 <= i < |options.items| => Lower(Str(render, options.items[i])));
      m := m[Delivery := VBool("delivery" in names)];
      m := m[Takeout := VBool("takeout" in names || "pickup" in names)];
    } else {
      UpdateUnchanged(mapped, Delivery, VBool(false));
      UpdateUnchanged(mapped, Takeout, VBool(false));
    }
  }

  /** Step 4: the closure label. */
  method MarkClosure(d: Dict, mapped: Dict) returns (m: Dict)
    requires Prospection in mapped && mapped[Prospection] == VNone
    ensures m == mapped[Prospection := ClosureLabel(Get(d, "operating_status"))]
  {
    m := mapped;
    var status := Get(d, "operating_status");
    if status == VStr("PERMANENTLY_CLOSED") {
      m := m[Prospection := VStr("Permanently Closed")];
    } else if status == VStr("TEMPORARILY_CLOSED") {
      m := m[Prospection := VStr("Temporarily Closed")];
    } else {
      UpdateUnchanged(mapped, Prospection, VNone);
    }
  }

  /** The mapped record starts with the three flags false and no status. */
  lemma MappedFlagsUnset(d: Dict, restaurantType: Value, today: string)
    ensures var m := Mapped(d, restaurantType, today);
            Bookings in m && m[Bookings] == VBool(false) && Delivery in m && m[Delivery] == VBool(false) &&
            Takeout in m && m[Takeout] == VBool(false) && Prospection in m && m[Prospection] == VNone
  {
  }

  /** `_process_result(result)`: builds the record, then sets the booking flag, the service flags and the closure label in turn. */
  method ProcessResult(render: Value -> string, today: string, result: Value) returns (r: Result<Dict>)
    ensures r == MapResult(render, today, result)
  {
    if !result.VDict? {
      return Raised("'" + TypeName(result) + "' object has no attribute 'get'");
    }
    var d := result.entries;
    var restaurantType := Get(d, "type");
    if restaurantType.VList? {
      match JoinValues(", ", restaurantType.items) {
        case Raised(msg) => return Raised(msg);
        case Ok(s) => restaurantType := VStr(s);
      }
    }
    assert TypeField(Get(d, "type")) == Ok(restaurantType);
    r := FlagRecord(render, today, d, restaurantType);
  }

  /** The rest of `_process_result` once the type is set: the record, then its flags and label in turn. */
  method FlagRecord(render: Value -> string, today: string, d: Dict, restaurantType: Value) returns (r: Result<Dict>)
    ensures r == Flagged(render, today, d, restaurantType)
  {
    var mapped := Mapped(d, restaurantType, today);
    MappedFlagsUnset(d, restaurantType, today);
    var booked := MarkBookings(render, d, mapped);
    if booked.Raised? {
      return Raised(booked.message);
    }
    mapped := MarkServiceOptions(render, d, booked.value);
    mapped := MarkClosure(d, mapped);
    return Ok(mapped);
  }

  /** The result `search_google_maps` hands to `_process_result`, or None when it selects nothing or indexing raises. */
  function Candidate(results: Dict): Option<Value> {
    if "error" in results then None
    else
      var local := GetOr(results, "local_results", VList([]));
      if !Truthy(local) then
        if "place_results" in results then Some(results["place_results"]) else None
      else
        match local
        case VList(items) => Some(items[0])
        case VStr(s) => Some(VStr([s[0]]))
        case _ => None
  }

  /**
   * `search_google_maps(query)` given the provider's reply to the request:
   * any exception, including one raised while mapping, yields None.
   */
  method SearchGoogleMaps(render: Value -> string, today: string, response: Result<Dict>) returns (r: Option<Dict>)
    ensures r == Selected(render, today, response)
    ensures r.Some? ==> r.value.Keys == MappedFields
  {
    if response.Raised? {
      return None;
    }
    var candidate := Candidate(response.value);
    if candidate.None? {
      return None;
    }
    var mapped := ProcessResult(render, today, candidate.value);
    MapResultShape(render, today, candidate.value);
    r := Picked(mapped);
  }

  /** The record `search_google_maps` returns for a reply, or None. */
  function Selected(render: Value -> string, today: string, response: Result<Dict>): Option<Dict> {
    if response.Raised? then None
    else match Candidate(response.value)
      case None => None
      case Some(result) => Picked(MapResult(render, today, result))
  }

  /**
   * Which result is selected: none after an error, the first local result
   * when there are local results, else the place result when there is one.
   */
  lemma SelectionCases(render: Value -> string, today: string, response: Result<Dict>)
    ensures response.Raised? ==> Selected(render, today, response) == None
    ensures response.Ok? && "error" in response.value ==> Selected(render, today, response) == None
    ensures response.Ok? && "error" !in response.value ==>
              var local := GetOr(response.value, "local_results", VList([]));
              (local.VList? && local.items != [] ==>
                 Selected(render, today, response) == Picked(MapResult(render, today, local.items[0]))) &&
              (Truthy(local) && !local.VList? ==> Selected(render, today, response) == None) &&
              (!Truthy(local) && "place_results" in response.value ==>
                 Selected(render, today, response) == Picked(MapResult(render, today, response.value["place_results"]))) &&
              (!Truthy(local) && "place_results" !in response.value ==> Selected(render, today, response) == None)
  {
    if response.Ok? && "error" !in response.value {
      var local := GetOr(response.value, "local_results", VList([]));
      if Truthy(local) && local.VStr? {
        assert Candidate(response.value) == Some(VStr([local.s[0]]));
        assert MapResult(render, today, VStr([local.s[0]])).Raised?;
      }
    }
  }

  function Picked(m: Result<Dict>): (r: Option<Dict>)
    ensures m.Ok? <==> r.Some?
  {
    if m.Ok? then Some(m.value) else None
  }

  /** A mapped record always holds the same fifteen fields. */
  lemma MapResultShape(render: Value -> string, today: string, result: Value)
    ensures MapResult(render, today, result).Ok? ==> MapResult(render, today, result).value.Keys == MappedFields
  {
  }

  /** The booking flag is true iff the result offers a table reservation or an extension mentions "booking" or "reserve". */
  lemma BookingFlag(render: Value -> string, today: string, d: Dict)
    requires MapResult(render, today, VDict(d)).Ok?
    ensures var exts := GetOr(d, "extensions", VList([]));
            MapResult(render, today, VDict(d)).value[Bookings] ==
              VBool(Truthy(Get(d, "reserve_a_table")) || (Truthy(exts) && AnyMentionsBooking(render, exts) == Ok(true)))
  {
  }

  /** A missing `service_options` counts as `{}`: neither delivery nor takeout. */
  lemma NoServiceOptions(render: Value -> string, today: string, d: Dict)
    requires "service_options" !in d
    requires MapResult(render, today, VDict(d)).Ok?
    ensures MapResult(render, today, VDict(d)).value[Delivery] == VBool(false)
    ensures MapResult(render, today, VDict(d)).value[Takeout] == VBool(false)
  {
  }

  /** A list of options is matched exactly after lowercasing: "Pickup" counts as takeout, "Delivery available" not as delivery. */
  lemma ListedServiceOptions(render: Value -> string)
    ensures ServiceFlags(render, VList([VStr("Pickup")])) == (VBool(false), VBool(true))
    ensures ServiceFlags(render, VList([VStr("Delivery available")])) == (VBool(false), VBool(false))
  {
    var p := Lower("Pickup");
    assert |p| == 6 && forall k :: 0 <= k < 6 ==> p[k] == "pickup"[k];
    assert p == "pickup";
    assert [p] == seq(1, i requires 0 <= i < 1 => Lower(Str(render, [VStr("Pickup")][i])));
    assert "delivery" != p;
    var q := Lower("Delivery available");
    assert |q| != |"delivery"| && |q| != |"takeout"| && |q| != |"pickup"|;
    assert [q] == seq(1, i requires 0 <= i < 1 => Lower(Str(render, [VStr("Delivery available")][i])));
  }
  /** The record `MapResult` returns when it returns one. */
  lemma Assembled(render: Value -> string, today: string, d: Dict)
    requires MapResult(render, today, VDict(d)).Ok?
    ensures TypeField(Get(d, "type")).Ok? && ExtensionsMention(render, d).Ok?
    ensures MapResult(render, today, VDict(d)).value ==
              Assemble(Mapped(d, TypeField(Get(d, "type")).value, today),
                       Truthy(Get(d, "reserve_a_table")) || ExtensionsMention(render, d).value,
                       ServiceFlags(render, GetOr(d, "service_options", VDict(map[]))),
                       ClosureLabel(Get(d, "operating_status")))
  {
  }

  /** Every copied field holds the result's own value (`None` when absent); the update date is today's. */
  lemma MappedCopies(render: Value -> string, today: string, d: Dict)
    requires MapResult(render, today, VDict(d)).Ok?
    ensures var r := MapResult(render, today, VDict(d)).value;
            r["Google_Place_ID__c"] == Get(d, "place_id") && r["Google_Data_ID__c"] == Get(d, "data_id") &&
            r["Google_Rating__c"] == Get(d, "rating") && r["Google_Reviews__c"] == Get(d, "reviews") &&
            r["Google_Price__c"] == Get(d, "price") && r["Title"] == Get(d, "title") && r["Address"] == Get(d, "address") &&
            r["Google_Thumbnail_URL__c"] == Get(d, "thumbnail") && r["Google_URL__c"] == Get(d, "website") &&
            r["Google_Updated_Date__c"] == VStr(today)
  {
    Assembled(render, today, d);
    AssembleCopies(d, TypeField(Get(d, "type")).value, today,
                   Truthy(Get(d, "reserve_a_table")) || ExtensionsMention(render, d).value,
                   ServiceFlags(render, GetOr(d, "service_options", VDict(map[]))), ClosureLabel(Get(d, "operating_status")));
  }

  lemma AssembleCopies(d: Dict, restaurantType: Value, today: string, booked: bool, flags: (Value, Value), closure: Value)
    ensures var r := Assemble(Mapped(d, restaurantType, today), booked, flags, closure);
            r["Google_Place_ID__c"] == Get(d, "place_id") && r["Google_Data_ID__c"] == Get(d, "data_id") &&
            r["Google_Rating__c"] == Get(d, "rating") && r["Google_Reviews__c"] == Get(d, "reviews") &&
            r["Google_Price__c"] == Get(d, "price") && r["Title"] == Get(d, "title") && r["Address"] == Get(d, "address") &&
            r["Google_Thumbnail_URL__c"] == Get(d, "thumbnail") && r["Google_URL__c"] == Get(d, "website") &&
            r["Google_Updated_Date__c"] == VStr(today)
  {
    var base := Mapped(d, restaurantType, today);
    MappedGoogleFields(d, restaurantType, today);
    MappedPlaceFields(d, restaurantType, today);
    Kept(base, booked, flags, closure, "Google_Place_ID__c");
    Kept(base, booked, flags, closure, "Google_Data_ID__c");
    Kept(base, booked, flags, closure, "Google_Rating__c");
    Kept(base, booked, flags, closure, "Google_Reviews__c");
    Kept(base, booked, flags, closure, "Google_Price__c");
    Kept(base, booked, flags, closure, "Title");
    Kept(base, booked, flags, closure, "Address");
    Kept(base, booked, flags, closure, "Google_Thumbnail_URL__c");
    Kept(base, booked, flags, closure, "Google_URL__c");
    Kept(base, booked, flags, closure, "Google_Updated_Date__c");
  }

  lemma MappedGoogleFields(d: Dict, restaurantType: Value, today: string)
    ensures var m := Mapped(d, restaurantType, today);
            m["Google_Place_ID__c"] == Get(d, "place_id") && m["Google_Data_ID__c"] == Get(d, "data_id") &&
            m["Google_Rating__c"] == Get(d, "rating") && m["Google_Reviews__c"] == Get(d, "reviews") &&
            m["Google_Price__c"] == Get(d, "price")
  {
  }

  lemma MappedPlaceFields(d: Dict, restaurantType: Value, today: string)
    ensures var m := Mapped(d, restaurantType, today);
            m["Title"] == Get(d, "title") && m["Address"] == Get(d, "address") &&
            m["Google_Thumbnail_URL__c"] == Get(d, "thumbnail") && m["Google_URL__c"] == Get(d, "website") &&
            m["Google_Updated_Date__c"] == VStr(today)
  {
  }


  lemma Kept(base: Dict, booked: bool, flags: (Value, Value), closure: Value, k: string)
    requires k in base && k != Bookings && k != Delivery && k != Takeout && k != Prospection
    ensures Assemble(base, booked, flags, closure)[k] == base[k]
  {
  }

  /** A list-valued type becomes its items joined with ", " (raising if one is not a `str`); any other type is kept. */
  lemma TypeJoined(render: Value -> string, today: string, d: Dict)
    ensures var t := Get(d, "type");
            MapResult(render, today, VDict(d)).Ok? && t.VList? ==>
              (forall k :: 0 <= k < |t.items| ==> t.items[k].VStr?) &&
              MapResult(render, today, VDict(d)).value["Google_Type__c"] == VStr(Join(", ", Texts(t.items)))
    ensures var t := Get(d, "type");
            t.VList? && (exists k :: 0 <= k < |t.items| && !t.items[k].VStr?) ==> MapResult(render, today, VDict(d)).Raised?
    ensures MapResult(render, today, VDict(d)).Ok? && !Get(d, "type").VList? ==>
              MapResult(render, today, VDict(d)).value["Google_Type__c"] == Get(d, "type")
  {
    if MapResult(render, today, VDict(d)).Ok? {
      Assembled(render, today, d);
      AssembleType(d, TypeField(Get(d, "type")).value, today,
                   Truthy(Get(d, "reserve_a_table")) || ExtensionsMention(render, d).value,
                   ServiceFlags(render, GetOr(d, "service_options", VDict(map[]))), ClosureLabel(Get(d, "operating_status")));
    }
  }

  lemma AssembleType(d: Dict, restaurantType: Value, today: string, booked: bool, flags: (Value, Value), closure: Value)
    ensures Assemble(Mapped(d, restaurantType, today), booked, flags, closure)["Google_Type__c"] == restaurantType
  {
    Kept(Mapped(d, restaurantType, today), booked, flags, closure, "Google_Type__c");
  }

  /** Only the two closed statuses get a label; any other status, or none, leaves the prospection status `None`. */
  lemma ClosureLabels(render: Value -> string, today: string, d: Dict)
    requires MapResult(render, today, VDict(d)).Ok?
    ensures var closed := MapResult(render, today, VDict(d)).value[Prospection];
            var status := Get(d, "operating_status");
            (status == VStr("PERMANENTLY_CLOSED") <==> closed == VStr("Permanently Closed")) &&
            (status == VStr("TEMPORARILY_CLOSED") <==> closed == VStr("Temporarily Closed")) &&
            (closed == VNone <==> status != VStr("PERMANENTLY_CLOSED") && status != VStr("TEMPORARILY_CLOSED"))
  {
  }
}
