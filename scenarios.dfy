/** A scenario: the filter over the rendered `apiRoutes`, for the value "event". */
module Scenarios {
  import opened Text
  import opened Routes
  import opened Cards

  /** The value "event" is its own filter term. */
  lemma TermOfEvent()
    ensures Term("event") == "event"
  {
    assert !IsWhitespace('e') && !IsWhitespace('t');
    assert TrimStart("event") == "event";
    assert TrimEnd("event") == "event";
  }

  /** A card whose path has "event" at `k` matches the query "event". */
  lemma ShownForEvent(d: RouteDescriptor, path: string, k: nat)
    requires d.path == path && OccursAt(path, "event", k)
    ensures Matches(RenderRouteCard(d), "event")
  {
    LowerKeepsOccurrence(path, "event", k);
    assert Lower("event") == "event";
  }

  /** Evidence that "event" does not occur in the lower-cased form of a text: the
      `k`-th letter of "event" appears, in either case, only at the positions `at`,
      and at none of them is it followed by letter `k + 1`. With `at` empty, the
      letter does not appear at all. */
  datatype Evidence = Gap(k: nat, at: set<nat>)

  /** `c` is the `k`-th letter of "event" in either case. */
  predicate IsEventLetter(c: char, k: nat)
    requires k < 5
  {
    c == "event"[k] || c == "EVENT"[k]
  }

  predicate Excludes(s: string, e: Evidence) {
    e.k < 4 &&
    (forall i :: 0 <= i < |s| && IsEventLetter(s[i], e.k) ==> i in e.at) &&
    (forall i: nat :: i in e.at && i + 1 < |s| ==> !IsEventLetter(s[i + 1], e.k + 1))
  }

  /** Only the two cases of a letter of "event" lower-case to it. */
  lemma LowerToEventLetter(c: char, k: nat)
    requires k < 5
    ensures LowerChar(c) == "event"[k] ==> IsEventLetter(c, k)
  {
  }

  /** A text that excludes "event" by `e` has no "event" once lower-cased. */
  lemma ExcludedAfterLower(s: string, e: Evidence)
    requires Excludes(s, e)
    ensures !Includes(Lower(s), "event")
  {
    var l := Lower(s);
    var k := e.k;
    forall i | 0 <= i < |l| - 1 ensures !(l[i] == "event"[k] && l[i + 1] == "event"[k + 1]) {
      LowerToEventLetter(s[i], k);
      LowerToEventLetter(s[i + 1], k + 1);
    }
    PairAbsent(l, "event", k);
  }

  /** A card matches no "event" query when both its path and its summary exclude it. */
  lemma HiddenForEvent(d: RouteDescriptor, path: string, summary: string, ep: Evidence, es: Evidence)
    requires d.path == path && OrEmpty(d.summary) == summary
    requires Excludes(path, ep) && Excludes(summary, es)
    ensures !Matches(RenderRouteCard(d), "event")
  {
    ExcludedAfterLower(path, ep);
    ExcludedAfterLower(summary, es);
  }

  lemma ApiBottlesPathExcludes()
    ensures Excludes("/api/bottles", Gap(1, {}))
  {
  }

  lemma ApiBottlesSummaryExcludes()
    ensures Excludes("Paginated bottle list", Gap(1, {}))
  {
  }

  /** `/api/bottles` is hidden for "event". */
  lemma ApiBottlesHidden()
    ensures !Matches(RenderRouteCard(ApiRoutes[0]), "event")
  {
    ApiBottlesPathExcludes();
    ApiBottlesSummaryExcludes();
    HiddenForEvent(ApiRoutes[0], "/api/bottles", "Paginated bottle list", Gap(1, {}), Gap(1, {}));
  }

  lemma ApiAddBottlePathExcludes()
    ensures Excludes("/api/add_bottle", Gap(1, {}))
  {
  }

  lemma ApiAddBottleSummaryExcludes()
    ensures Excludes("Create a new bottle record", Gap(1, {}))
  {
  }

  /** `/api/add_bottle` is hidden for "event". */
  lemma ApiAddBottleHidden()
    ensures !Matches(RenderRouteCard(ApiRoutes[1]), "event")
  {
    ApiAddBottlePathExcludes();
    ApiAddBottleSummaryExcludes();
    HiddenForEvent(ApiRoutes[1], "/api/add_bottle", "Create a new bottle record", Gap(1, {}), Gap(1, {}));
  }

  lemma GetImagesPathExcludes()
    ensures Excludes("/get_images", Gap(1, {}))
  {
  }

  lemma GetImagesSummaryExcludes()
    ensures Excludes("Fetch candidate bottle images", Gap(1, {}))
  {
  }

  /** `/get_images` is hidden for "event". */
  lemma GetImagesHidden()
    ensures !Matches(RenderRouteCard(ApiRoutes[2]), "event")
  {
    GetImagesPathExcludes();
    GetImagesSummaryExcludes();
    HiddenForEvent(ApiRoutes[2], "/get_images", "Fetch candidate bottle images", Gap(1, {}), Gap(1, {}));
  }

  lemma ApiRemoveEntryPathExcludes()
    ensures Excludes("/api/remove_entry", Gap(0, {6, 10, 12}))
  {
  }

  lemma ApiRemoveEntrySummaryExcludes()
    ensures Excludes("Delete a record from a table", Gap(1, {}))
  {
  }

  /** `/api/remove_entry` is hidden for "event". */
  lemma ApiRemoveEntryHidden()
    ensures !Matches(RenderRouteCard(ApiRoutes[3]), "event")
  {
    ApiRemoveEntryPathExcludes();
    ApiRemoveEntrySummaryExcludes();
    HiddenForEvent(ApiRoutes[3], "/api/remove_entry", "Delete a record from a table", Gap(0, {6, 10, 12}), Gap(1, {}));
  }

  lemma ApiMakeUnavailablePathExcludes()
    ensures Excludes("/api/make_unavailable", Gap(1, {13}))
  {
  }

  lemma ApiMakeUnavailableSummaryExcludes()
    ensures Excludes("Mark a bottle unavailable", Gap(1, {17}))
  {
  }

  /** `/api/make_unavailable` is hidden for "event". */
  lemma ApiMakeUnavailableHidden()
    ensures !Matches(RenderRouteCard(ApiRoutes[4]), "event")
  {
    ApiMakeUnavailablePathExcludes();
    ApiMakeUnavailableSummaryExcludes();
    HiddenForEvent(ApiRoutes[4], "/api/make_unavailable", "Mark a bottle unavailable", Gap(1, {13}), Gap(1, {17}));
  }

  lemma ApiAddUserPathExcludes()
    ensures Excludes("/api/add_user", Gap(1, {}))
  {
  }

  lemma ApiAddUserSummaryExcludes()
    ensures Excludes("Create a user", Gap(1, {}))
  {
  }

  /** `/api/add_user` is hidden for "event". */
  lemma ApiAddUserHidden()
    ensures !Matches(RenderRouteCard(ApiRoutes[5]), "event")
  {
    ApiAddUserPathExcludes();
    ApiAddUserSummaryExcludes();
    HiddenForEvent(ApiRoutes[5], "/api/add_user", "Create a user", Gap(1, {}), Gap(1, {}));
  }

  lemma ApiAddReviewPathExcludes()
    ensures Excludes("/api/add_review", Gap(3, {}))
  {
  }

  lemma ApiAddReviewSummaryExcludes()
    ensures Excludes("Create a review for a bottle", Gap(3, {}))
  {
  }

  /** `/api/add_review` is hidden for "event". */
  lemma ApiAddReviewHidden()
    ensures !Matches(RenderRouteCard(ApiRoutes[6]), "event")
  {
    ApiAddReviewPathExcludes();
    ApiAddReviewSummaryExcludes();
    HiddenForEvent(ApiRoutes[6], "/api/add_review", "Create a review for a bottle", Gap(3, {}), Gap(3, {}));
  }

  lemma ApiRandomBottleIdPathExcludes()
    ensures Excludes("/api/random_bottle_id", Gap(1, {}))
  {
  }

  lemma ApiRandomBottleIdSummaryExcludes()
    ensures Excludes("Random available bottle id", Gap(1, {8}))
  {
  }

  /** `/api/random_bottle_id` is hidden for "event". */
  lemma ApiRandomBottleIdHidden()
    ensures !Matches(RenderRouteCard(ApiRoutes[7]), "event")
  {
    ApiRandomBottleIdPathExcludes();
    ApiRandomBottleIdSummaryExcludes();
    HiddenForEvent(ApiRoutes[7], "/api/random_bottle_id", "Random available bottle id", Gap(1, {}), Gap(1, {8}));
  }

  /** `/api/add_event` is shown for "event". */
  lemma ApiAddEventShown()
    ensures Matches(RenderRouteCard(ApiRoutes[8]), "event")
  {
    ShownForEvent(ApiRoutes[8], "/api/add_event", 9);
  }

  /** `/api/add_bottles_to_event` is shown for "event". */
  lemma ApiAddBottlesToEventShown()
    ensures Matches(RenderRouteCard(ApiRoutes[9]), "event")
  {
    ShownForEvent(ApiRoutes[9], "/api/add_bottles_to_event", 20);
  }

  /** `/api/add_users_to_event` is shown for "event". */
  lemma ApiAddUsersToEventShown()
    ensures Matches(RenderRouteCard(ApiRoutes[10]), "event")
  {
    ShownForEvent(ApiRoutes[10], "/api/add_users_to_event", 18);
  }

  lemma ApiUserExistsPathExcludes()
    ensures Excludes("/api/user_exists", Gap(1, {}))
  {
  }

  lemma ApiUserExistsSummaryExcludes()
    ensures Excludes("Lookup user id and set cookie", Gap(1, {}))
  {
  }

  /** `/api/user_exists` is hidden for "event". */
  lemma ApiUserExistsHidden()
    ensures !Matches(RenderRouteCard(ApiRoutes[11]), "event")
  {
    ApiUserExistsPathExcludes();
    ApiUserExistsSummaryExcludes();
    HiddenForEvent(ApiRoutes[11], "/api/user_exists", "Lookup user id and set cookie", Gap(1, {}), Gap(1, {}));
  }

  /** `/api/upload_event_photo_file` is shown for "event". */
  lemma ApiUploadEventPhotoFileShown()
    ensures Matches(RenderRouteCard(ApiRoutes[12]), "event")
  {
    ShownForEvent(ApiRoutes[12], "/api/upload_event_photo_file", 12);
  }

  /** `/api/upload_event_photo_b64` is shown for "event". */
  lemma ApiUploadEventPhotoB64Shown()
    ensures Matches(RenderRouteCard(ApiRoutes[13]), "event")
  {
    ShownForEvent(ApiRoutes[13], "/api/upload_event_photo_b64", 12);
  }

  lemma ApiEditExpertNotesPathExcludes()
    ensures Excludes("/api/edit_expert_notes", Gap(1, {}))
  {
  }

  lemma ApiEditExpertNotesSummaryExcludes()
    ensures Excludes("Update expert notes and description", Gap(1, {}))
  {
  }

  /** `/api/edit_expert_notes` is hidden for "event". */
  lemma ApiEditExpertNotesHidden()
    ensures !Matches(RenderRouteCard(ApiRoutes[14]), "event")
  {
    ApiEditExpertNotesPathExcludes();
    ApiEditExpertNotesSummaryExcludes();
    HiddenForEvent(ApiRoutes[14], "/api/edit_expert_notes", "Update expert notes and description", Gap(1, {}), Gap(1, {}));
  }

  lemma ApiCheckBottlePathExcludes()
    ensures Excludes("/api/check_bottle", Gap(1, {}))
  {
  }

  lemma ApiCheckBottleSummaryExcludes()
    ensures Excludes("Check if bottle exists", Gap(1, {}))
  {
  }

  /** `/api/check_bottle` is hidden for "event". */
  lemma ApiCheckBottleHidden()
    ensures !Matches(RenderRouteCard(ApiRoutes[15]), "event")
  {
    ApiCheckBottlePathExcludes();
    ApiCheckBottleSummaryExcludes();
    HiddenForEvent(ApiRoutes[15], "/api/check_bottle", "Check if bottle exists", Gap(1, {}), Gap(1, {}));
  }

  lemma ApiCheckUserPathExcludes()
    ensures Excludes("/api/check_user", Gap(1, {}))
  {
  }

  lemma ApiCheckUserSummaryExcludes()
    ensures Excludes("Check if user exists", Gap(1, {}))
  {
  }

  /** `/api/check_user` is hidden for "event". */
  lemma ApiCheckUserHidden()
    ensures !Matches(RenderRouteCard(ApiRoutes[16]), "event")
  {
    ApiCheckUserPathExcludes();
    ApiCheckUserSummaryExcludes();
    HiddenForEvent(ApiRoutes[16], "/api/check_user", "Check if user exists", Gap(1, {}), Gap(1, {}));
  }

  lemma DatabaseImagesPathPathExcludes()
    ensures Excludes("/database_images/[path]", Gap(1, {}))
  {
  }

  lemma DatabaseImagesPathSummaryExcludes()
    ensures Excludes("Serve uploaded images", Gap(3, {}))
  {
  }

  /** `/database_images/[path]` is hidden for "event". */
  lemma DatabaseImagesPathHidden()
    ensures !Matches(RenderRouteCard(ApiRoutes[17]), "event")
  {
    DatabaseImagesPathPathExcludes();
    DatabaseImagesPathSummaryExcludes();
    HiddenForEvent(ApiRoutes[17], "/database_images/[path]", "Serve uploaded images", Gap(1, {}), Gap(3, {}));
  }

  lemma ModalBottlePathExcludes()
    ensures Excludes("/modal/bottle", Gap(1, {}))
  {
  }

  lemma ModalBottleSummaryExcludes()
    ensures Excludes("Returns bottle details modal HTML", Gap(1, {}))
  {
  }

  /** `/modal/bottle` is hidden for "event". */
  lemma ModalBottleHidden()
    ensures !Matches(RenderRouteCard(ApiRoutes[18]), "event")
  {
    ModalBottlePathExcludes();
    ModalBottleSummaryExcludes();
    HiddenForEvent(ApiRoutes[18], "/modal/bottle", "Returns bottle details modal HTML", Gap(1, {}), Gap(1, {}));
  }

  /** The outcomes for cards 0 to 4, gathered into one statement. */
  lemma EventOutcomes0To4(routes: seq<RouteDescriptor>)
    requires |routes| >= 5
    requires !Matches(RenderRouteCard(routes[0]), "event")
    requires !Matches(RenderRouteCard(routes[1]), "event")
    requires !Matches(RenderRouteCard(routes[2]), "event")
    requires !Matches(RenderRouteCard(routes[3]), "event")
    requires !Matches(RenderRouteCard(routes[4]), "event")
    ensures forall i :: 0 <= i < 5 ==>
              (Matches(RenderRouteCard(routes[i]), "event") <==> i in {8, 9, 10, 12, 13})
  {
    forall i | 0 <= i < 5
      ensures Matches(RenderRouteCard(routes[i]), "event") <==> i in {8, 9, 10, 12, 13}
    {
      assert i == 0 || i == 1 || i == 2 || i == 3 || i == 4;
    }
  }

  /** The outcomes for cards 5 to 9, gathered into one statement. */
  lemma EventOutcomes5To9(routes: seq<RouteDescriptor>)
    requires |routes| >= 10
    requires !Matches(RenderRouteCard(routes[5]), "event")
    requires !Matches(RenderRouteCard(routes[6]), "event")
    requires !Matches(RenderRouteCard(routes[7]), "event")
    requires Matches(RenderRouteCard(routes[8]), "event")
    requires Matches(RenderRouteCard(routes[9]), "event")
    ensures forall i :: 5 <= i < 10 ==>
              (Matches(RenderRouteCard(routes[i]), "event") <==> i in {8, 9, 10, 12, 13})
  {
    forall i | 5 <= i < 10
      ensures Matches(RenderRouteCard(routes[i]), "event") <==> i in {8, 9, 10, 12, 13}
    {
      assert i == 5 || i == 6 || i == 7 || i == 8 || i == 9;
    }
  }

  /** The outcomes for cards 10 to 14, gathered into one statement. */
  lemma EventOutcomes10To14(routes: seq<RouteDescriptor>)
    requires |routes| >= 15
    requires Matches(RenderRouteCard(routes[10]), "event")
    requires !Matches(RenderRouteCard(routes[11]), "event")
    requires Matches(RenderRouteCard(routes[12]), "event")
    requires Matches(RenderRouteCard(routes[13]), "event")
    requires !Matches(RenderRouteCard(routes[14]), "event")
    ensures forall i :: 10 <= i < 15 ==>
              (Matches(RenderRouteCard(routes[i]), "event") <==> i in {8, 9, 10, 12, 13})
  {
    forall i | 10 <= i < 15
      ensures Matches(RenderRouteCard(routes[i]), "event") <==> i in {8, 9, 10, 12, 13}
    {
      assert i == 10 || i == 11 || i == 12 || i == 13 || i == 14;
    }
  }

  /** The outcomes for cards 15 to 18, gathered into one statement. */
  lemma EventOutcomes15To18(routes: seq<RouteDescriptor>)
    requires |routes| >= 19
    requires !Matches(RenderRouteCard(routes[15]), "event")
    requires !Matches(RenderRouteCard(routes[16]), "event")
    requires !Matches(RenderRouteCard(routes[17]), "event")
    requires !Matches(RenderRouteCard(routes[18]), "event")
    ensures forall i :: 15 <= i < 19 ==>
              (Matches(RenderRouteCard(routes[i]), "event") <==> i in {8, 9, 10, 12, 13})
  {
    forall i | 15 <= i < 19
      ensures Matches(RenderRouteCard(routes[i]), "event") <==> i in {8, 9, 10, 12, 13}
    {
      assert i == 15 || i == 16 || i == 17 || i == 18;
    }
  }

  /** Which of the endpoints 0 to 4 of `apiRoutes` match the query "event". */
  lemma EventMatches0To4()
    ensures forall i :: 0 <= i < 5 ==>
              (Matches(RenderRouteCard(ApiRoutes[i]), "event") <==> i in {8, 9, 10, 12, 13})
  {
    ApiRoutesShape();
    ApiBottlesHidden();
    ApiAddBottleHidden();
    GetImagesHidden();
    ApiRemoveEntryHidden();
    ApiMakeUnavailableHidden();
    EventOutcomes0To4(ApiRoutes);
  }

  /** Which of the endpoints 5 to 9 of `apiRoutes` match the query "event". */
  lemma EventMatches5To9()
    ensures forall i :: 5 <= i < 10 ==>
              (Matches(RenderRouteCard(ApiRoutes[i]), "event") <==> i in {8, 9, 10, 12, 13})
  {
    ApiRoutesShape();
    ApiAddUserHidden();
    ApiAddReviewHidden();
    ApiRandomBottleIdHidden();
    ApiAddEventShown();
    ApiAddBottlesToEventShown();
    EventOutcomes5To9(ApiRoutes);
  }

  /** Which of the endpoints 10 to 14 of `apiRoutes` match the query "event". */
  lemma EventMatches10To14()
    ensures forall i :: 10 <= i < 15 ==>
              (Matches(RenderRouteCard(ApiRoutes[i]), "event") <==> i in {8, 9, 10, 12, 13})
  {
    ApiRoutesShape();
    ApiAddUsersToEventShown();
    ApiUserExistsHidden();
    ApiUploadEventPhotoFileShown();
    ApiUploadEventPhotoB64Shown();
    ApiEditExpertNotesHidden();
    EventOutcomes10To14(ApiRoutes);
  }

  /** Which of the endpoints 15 to 18 of `apiRoutes` match the query "event". */
  lemma EventMatches15To18()
    ensures forall i :: 15 <= i < 19 ==>
              (Matches(RenderRouteCard(ApiRoutes[i]), "event") <==> i in {8, 9, 10, 12, 13})
  {
    ApiRoutesShape();
    ApiCheckBottleHidden();
    ApiCheckUserHidden();
    DatabaseImagesPathHidden();
    ModalBottleHidden();
    EventOutcomes15To18(ApiRoutes);
  }

  /** Which endpoints of `apiRoutes` match the query "event". */
  lemma EventMatchesAll()
    ensures forall i :: 0 <= i < |ApiRoutes| ==>
              (Matches(RenderRouteCard(ApiRoutes[i]), "event") <==> i in {8, 9, 10, 12, 13})
  {
    ApiRoutesShape();
    EventMatches0To4();
    EventMatches5To9();
    EventMatches10To14();
    EventMatches15To18();
  }

  /** A filter pass over freshly rendered cards shows exactly the routes whose
      cards match. */
  lemma RenderedThenFiltered(routes: seq<RouteDescriptor>, term: string, matching: set<int>)
    requires forall i :: 0 <= i < |routes| ==> (Matches(RenderRouteCard(routes[i]), term) <==> i in matching)
    ensures |Filtered(Rendered(routes), term)| == |routes|
    ensures forall i :: 0 <= i < |routes| ==> (Shown(Filtered(Rendered(routes), term)[i]) <==> i in matching)
  {
  }

  /** The filter pass for the term "event" over the rendered `apiRoutes`. */
  lemma EventTermQuery()
    ensures |Filtered(Rendered(ApiRoutes), "event")| == |ApiRoutes|
    ensures forall i :: 0 <= i < |ApiRoutes| ==>
              (Shown(Filtered(Rendered(ApiRoutes), "event")[i]) <==> i in {8, 9, 10, 12, 13})
  {
    EventMatchesAll();
    RenderedThenFiltered(ApiRoutes, "event", {8, 9, 10, 12, 13});
  }

  /** Typing "event" into the filter over the rendered `apiRoutes` leaves shown
      exactly the five event endpoints: add_event, add_bottles_to_event,
      add_users_to_event and the two upload_event_photo endpoints. */
  lemma EventQuery()
    ensures |Filtered(Rendered(ApiRoutes), Term("event"))| == |ApiRoutes|
    ensures forall i :: 0 <= i < |ApiRoutes| ==>
              (Shown(Filtered(Rendered(ApiRoutes), Term("event"))[i]) <==> i in {8, 9, 10, 12, 13})
  {
    TermOfEvent();
    EventTermQuery();
  }
}
