/** The page: its card containers, `renderRoutes`, `setupFilter` with its input
    handler, and the ready handler that runs them in order. */
module Page {
  import opened Text
  import opened Routes
  import opened Cards
  import opened Reveal

  const WebRoutesId: string := "web-routes"
  const ApiRoutesId: string := "api-routes"

  /** A container element; its children are the card elements it holds. */
  class Container {
    var children: seq<Element>

    constructor (children: seq<Element>)
      ensures this.children == children
    {
      this.children := children;
    }

    /** The body of the filter listener for one container: each card's display is
        written, "grid" when the card matches `term` and "none" otherwise. */
    method ShowMatching(term: string)
      modifies this
      ensures children == Filtered(old(children), term)
    {
      ghost var before := children;
      var n := |children|;
      for i := 0 to n
        invariant |children| == n
        invariant forall j :: 0 <= j < i ==> children[j] == FilterOne(before[j], term)
        invariant forall j :: i <= j < n ==> children[j] == before[j]
      {
        children := children[i := FilterOne(children[i], term)];
      }
      FilteredByElements(before, children, term);
    }
  }

  /** Distinct ids name distinct elements, as `getElementById` guarantees. */
  ghost predicate DistinctElements(containers: map<string, Container>) {
    forall a, b :: a in containers && b in containers && a != b ==> containers[a] != containers[b]
  }

  /** The host document: the containers `getElementById` can find, whether the
      `#route-filter` input exists, whether its input listener is attached, and
      how many `.reveal` elements it holds. */
  class Document {
    const containers: map<string, Container>
    const hasFilterInput: bool
    var filterAttached: bool
    const revealItems: nat

    ghost predicate Valid() {
      DistinctElements(containers)
    }

    constructor (containers: map<string, Container>, hasFilterInput: bool, revealItems: nat)
      requires DistinctElements(containers)
      ensures Valid()
      ensures this.containers == containers && this.hasFilterInput == hasFilterInput
      ensures this.revealItems == revealItems && !filterAttached
    {
      this.containers := containers;
      this.hasFilterInput := hasFilterInput;
      this.revealItems := revealItems;
      this.filterAttached := false;
    }

    /** The container `id` names, as a one-element frame, or nothing. */
    function Target(id: string): set<Container> {
      if id in containers then {containers[id]} else {}
    }

    /** `renderRoutes(routes, id)`: a missing container is a silent no-op; otherwise
        the container's previous children are dropped and replaced by one fresh
        card per route, in order. No other container changes. */
    method RenderRoutes(routes: seq<RouteDescriptor>, id: string)
      requires Valid()
      modifies Target(id)
      ensures id in containers ==> containers[id].children == Rendered(routes)
      ensures forall k :: k in containers && k != id ==>
                containers[k].children == old(containers[k].children)
      ensures id !in containers ==>
                forall k :: k in containers ==> containers[k].children == old(containers[k].children)
    {
      if id !in containers {
        return;
      }
      var container := containers[id];
      container.children := [];
      for i := 0 to |routes|
        invariant |container.children| == i
        invariant forall j :: 0 <= j < i ==> container.children[j] == Rendered(routes)[j]
      {
        container.children := container.children + [Element(RenderRouteCard(routes[i]), Unset)];
      }
    }

    /** `setupFilter()`: attaches the input listener when `#route-filter` exists,
        and does nothing otherwise. */
    method SetupFilter()
      modifies this`filterAttached
      ensures filterAttached == (old(filterAttached) || hasFilterInput)
    {
      if !hasFilterInput {
        return;
      }
      filterAttached := true;
    }

    /** The filter listener run on an input event carrying `value`: every card in
        `#api-routes` is shown exactly when the trimmed, lower-cased value occurs in
        its path tag or its summary tag, and hidden otherwise. With no listener
        attached, or no `#api-routes`, nothing changes; no other container ever
        changes. */
    method OnFilterInput(value: string)
      requires Valid()
      modifies if filterAttached then Target(ApiRoutesId) else {}
      ensures filterAttached && ApiRoutesId in containers ==>
                containers[ApiRoutesId].children ==
                Filtered(old(containers[ApiRoutesId].children), Term(value))
      ensures forall k :: k in containers && (k != ApiRoutesId || !filterAttached) ==>
                containers[k].children == old(containers[k].children)
    {
      if !filterAttached || ApiRoutesId !in containers {
        return;
      }
      containers[ApiRoutesId].ShowMatching(Term(value));
    }

    /** `setupReveal()`: a fresh observer watching every `.reveal` element. */
    method SetupReveal() returns (observer: RevealObserver)
      ensures fresh(observer) && observer.items == revealItems
      ensures observer.State() == Initial(revealItems) && observer.Valid()
    {
      observer := new RevealObserver(revealItems);
    }

    /** The `DOMContentLoaded` handler: render both registries, set up the filter,
        then set up the reveal observer. */
    method OnReady() returns (observer: RevealObserver)
      requires Valid()
      modifies this`filterAttached, Target(WebRoutesId), Target(ApiRoutesId)
      ensures WebRoutesId in containers ==> containers[WebRoutesId].children == Rendered(WebRoutes)
      ensures ApiRoutesId in containers ==> containers[ApiRoutesId].children == Rendered(ApiRoutes)
      ensures forall k :: k in containers && k != WebRoutesId && k != ApiRoutesId ==>
                containers[k].children == old(containers[k].children)
      ensures filterAttached == (old(filterAttached) || hasFilterInput)
      ensures fresh(observer) && observer.State() == Initial(revealItems) && observer.Valid()
    {
      RenderRoutes(WebRoutes, WebRoutesId);
      RenderRoutes(ApiRoutes, ApiRoutesId);
      SetupFilter();
      observer := SetupReveal();
    }
  }

  /** Rendering is a full replacement: a second `renderRoutes` with the same input
      leaves exactly what the first one left. */
  method RenderTwice(doc: Document, routes: seq<RouteDescriptor>, id: string)
    requires doc.Valid()
    modifies doc.Target(id)
    ensures id in doc.containers ==> doc.containers[id].children == Rendered(routes)
  {
    doc.RenderRoutes(routes, id);
    ghost var once := if id in doc.containers then doc.containers[id].children else [];
    doc.RenderRoutes(routes, id);
    assert id in doc.containers ==> doc.containers[id].children == once;
  }

  /** Loading the page and then typing `value` into the filter leaves the API
      cards, in registry order, each shown exactly when it matches the value's
      term. */
  method ReadyThenType(doc: Document, value: string)
    requires doc.Valid() && doc.hasFilterInput && ApiRoutesId in doc.containers
    modifies doc`filterAttached, doc.Target(WebRoutesId), doc.Target(ApiRoutesId)
    ensures doc.containers[ApiRoutesId].children == Filtered(Rendered(ApiRoutes), Term(value))
  {
    var observer := doc.OnReady();
    doc.OnFilterInput(value);
  }

  /** Typing a value and then clearing the input: whatever the first value hid,
      the empty value shows every API card again, and the cards themselves are
      those that were there before. */
  method TypeThenClear(doc: Document, value: string)
    requires doc.Valid() && doc.filterAttached && ApiRoutesId in doc.containers
    modifies doc.Target(ApiRoutesId)
    ensures |doc.containers[ApiRoutesId].children| == |old(doc.containers[ApiRoutesId].children)|
    ensures forall i :: 0 <= i < |doc.containers[ApiRoutesId].children| ==>
              doc.containers[ApiRoutesId].children[i].card == old(doc.containers[ApiRoutesId].children[i].card) &&
              Shown(doc.containers[ApiRoutesId].children[i])
  {
    var container := doc.containers[ApiRoutesId];
    ghost var before := container.children;
    doc.OnFilterInput(value);
    ghost var typed := container.children;
    doc.OnFilterInput("");
    assert container.children == Filtered(typed, Term(""));
    FilterForgetsEarlierPass(before, Term(value), Term(""));
    BlankQueryShowsAll(before, "");
    assert container.children == Filtered(before, Term(""));
  }
}
