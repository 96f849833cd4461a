/** The two static registries of route descriptors the page documents. */
module Routes {

  datatype Option<T> = None | Some(value: T)

  /** One documented HTTP endpoint. `response` is the source's `returns` field
      (a Dafny keyword), `httpMethod` its `method` field. */
  datatype RouteDescriptor = Route(
    httpMethod: string,
    path: string,
    summary: Option<string>,
    params: Option<string>,
    response: Option<string>,
    notes: Option<string>)

  /** JavaScript truthiness of an optional string field: present and non-empty. */
  predicate Truthy(field: Option<string>) {
    field.Some? && field.value != ""
  }

  /** `field || ""`. */
  function OrEmpty(field: Option<string>): (r: string)
    ensures Truthy(field) ==> r == field.value
    ensures !Truthy(field) ==> r == ""
  {
    if field.Some? then field.value else ""
  }

  /** Every registry descriptor has a method and a path rooted at "/". */
  predicate WellFormed(d: RouteDescriptor) {
    d.httpMethod != "" && d.path != "" && d.path[0] == '/'
  }

  /** `webRoutes`: the pages of the application, in display order. */
  const WebRoutes: seq<RouteDescriptor> :=
    [
      Route("GET", "/",
            Some("Landing page"),
            None,
            None,
            None),
      Route("GET", "/home",
            Some("Home page"),
            None,
            None,
            None),
      Route("GET", "/inventory",
            Some("Inventory listing with filters and sorting"),
            Some("Query: brand, type, subtype, sort_by (default brand), order (asc|desc)"),
            None,
            None),
      Route("GET", "/users",
            Some("Users page with their reviews"),
            None,
            None,
            None),
      Route("GET", "/events",
            Some("Events list"),
            None,
            None,
            None),
      Route("GET", "/event",
            Some("Event console view. This page has the intention of being run on a central device, showing all the whiskeys, reviews and photos from the event."),
            Some("Query: id, version=client|console"),
            None,
            None),
      Route("GET", "/event_client",
            Some("Event client view. This page has the intention of being run on user devices. This removes the current reviews and ratings of bottles to leave the tasting un-biased."),
            Some("Query: id; requires user_id cookie"),
            None,
            None),
      Route("GET", "/bartender",
            Some("Admin console with table dump/"),
            None,
            None,
            None),
      Route("GET", "/expert_notes",
            Some("Expert notes editor view for the admin console. Enables the setting and changing of expert notes for each bottle through a simple UI"),
            None,
            None,
            None)
    ]

  /** `apiRoutes`: the endpoints of the application, in display order. */
  const ApiRoutes: seq<RouteDescriptor> :=
    [
      Route("GET", "/api/bottles",
            Some("Paginated bottle list"),
            Some("Query: offset (default 0), limit (default 30)"),
            Some("Array of {id, brand, name, abv, image_path, available}"),
            None),
      Route("POST", "/api/add_bottle",
            Some("Create a new bottle record"),
            Some("JSON: brand, name, abv, spirit_type, subtype (optional), description (optional), photo (optional base64 data URL)"),
            Some("201 with {message, id}"),
            Some("If description is empty, it is generated via OpenAI.")),
      Route("GET", "/get_images",
            Some("Fetch candidate bottle images"),
            Some("Query: brand, name"),
            Some("{query, images:[data URLs]}"),
            None),
      Route("POST", "/api/remove_entry",
            Some("Delete a record from a table"),
            Some("JSON: table, id"),
            None,
            None),
      Route("POST", "/api/make_unavailable",
            Some("Mark a bottle unavailable"),
            Some("JSON: id"),
            None,
            None),
      Route("POST", "/api/add_user",
            Some("Create a user"),
            Some("JSON: name, photo (optional base64 data URL)"),
            None,
            None),
      Route("POST", "/api/add_review",
            Some("Create a review for a bottle"),
            Some("JSON: name (user name or id), review_text, notes (array), score (0-10), bottle_id, event_id (optional)"),
            Some("201 with {message, review_id}"),
            None),
      Route("GET", "/api/random_bottle_id",
            Some("Random available bottle id"),
            None,
            Some("{id}"),
            None),
      Route("POST", "/api/add_event",
            Some("Create a tasting event"),
            Some("JSON: name, event_date"),
            None,
            Some("Folder path uses name + date under ./database_images/events.")),
      Route("POST", "/api/add_bottles_to_event",
            Some("Assign bottles to an event"),
            Some("Form: event_id, bottle_ids (comma-separated)"),
            None,
            None),
      Route("POST", "/api/add_users_to_event",
            Some("Assign users to an event"),
            Some("Form: event_id, user_ids (comma-separated)"),
            None,
            None),
      Route("POST", "/api/user_exists",
            Some("Lookup user id and set cookie"),
            Some("Form: name"),
            Some("{user_id} and sets user_id cookie"),
            None),
      Route("POST", "/api/upload_event_photo_file",
            Some("Upload event photo (file)"),
            Some("Form: event_id, image_file"),
            None,
            None),
      Route("POST", "/api/upload_event_photo_b64",
            Some("Upload event photo (base64)"),
            Some("Form: event_id, image_data (data URL)"),
            None,
            None),
      Route("POST", "/api/edit_expert_notes",
            Some("Update expert notes and description"),
            Some("JSON: bottle_id, description (optional), notes (array)"),
            None,
            None),
      Route("GET", "/api/check_bottle",
            Some("Check if bottle exists"),
            Some("Query: brand, name"),
            Some("{exists:true|false}"),
            None),
      Route("GET", "/api/check_user",
            Some("Check if user exists"),
            Some("Query: name"),
            Some("{exists:true|false}"),
            None),
      Route("GET", "/database_images/[path]",
            Some("Serve uploaded images"),
            Some("path"),
            Some("Image as a Base64 encoded string"),
            None),
      Route("POST", "/modal/bottle",
            Some("Returns bottle details modal HTML"),
            Some("JSON: bottle_id"),
            None,
            None)
    ]

  /** `webRoutes` lists nine pages, all fetched with GET. */
  lemma WebRoutesShape()
    ensures |WebRoutes| == 9
    ensures forall i :: 0 <= i < |WebRoutes| ==>
              WellFormed(WebRoutes[i]) && WebRoutes[i].httpMethod == "GET"
  {
  }

  /** `apiRoutes` lists nineteen endpoints, each a GET or a POST. */
  lemma ApiRoutesShape()
    ensures |ApiRoutes| == 19
    ensures forall i :: 0 <= i < |ApiRoutes| ==>
              WellFormed(ApiRoutes[i]) &&
              (ApiRoutes[i].httpMethod == "GET" || ApiRoutes[i].httpMethod == "POST")
  {
  }
}
