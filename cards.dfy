/** `renderRouteCard` as a value computation, and the filter's matching rule. */
module Cards {
  import opened Text
  import opened Routes

  /** The label a metadata line is prefixed with, in display order. */
  datatype Label = Params | Returns | Notes

  datatype MetaLine = MetaLine(kind: Label, text: string)

  /** A rendered `article.route-card`: the two filter tags (`data-path`,
      `data-summary`), the header (method and path), the summary text and the
      metadata lines. */
  datatype Card = Card(
    pathTag: string,
    summaryTag: string,
    headerMethod: string,
    headerPath: string,
    body: string,
    meta: seq<MetaLine>)

  /** Inline `style.display` of a card element: never set, "grid" or "none". */
  datatype Display = Unset | Grid | Hidden

  /** A card element as it sits in a container. */
  datatype Element = Element(card: Card, display: Display)

  predicate Shown(e: Element) {
    e.display != Hidden
  }

  /** The optional descriptor field a label stands for. */
  function Field(d: RouteDescriptor, l: Label): Option<string> {
    match l
    case Params => d.params
    case Returns => d.response
    case Notes => d.notes
  }

  function Rank(l: Label): nat {
    match l
    case Params => 0
    case Returns => 1
    case Notes => 2
  }

  function Labels(lines: seq<MetaLine>): (r: seq<Label>)
    ensures |r| == |lines| && forall k :: 0 <= k < |lines| ==> r[k] == lines[k].kind
  {
    seq(|lines|, k requires 0 <= k < |lines| => lines[k].kind)
  }

  function Count(b: bool): nat {
    if b then 1 else 0
  }

  /** Number of truthy optional fields of `d`. */
  function TruthyFields(d: RouteDescriptor): nat {
    Count(Truthy(d.params)) + Count(Truthy(d.response)) + Count(Truthy(d.notes))
  }

  function LineFor(d: RouteDescriptor, l: Label): seq<MetaLine> {
    if Truthy(Field(d, l)) then [MetaLine(l, Field(d, l).value)] else []
  }

  /** The `div.meta` lines: the line of each of the three `if` blocks, in turn. */
  function MetaLines(d: RouteDescriptor): seq<MetaLine> {
    LineFor(d, Params) + LineFor(d, Returns) + LineFor(d, Notes)
  }

  /** One metadata line per truthy optional field. */
  lemma MetaLinesCount(d: RouteDescriptor)
    ensures |MetaLines(d)| == TruthyFields(d)
  {
  }

  /** Every metadata line stands for a truthy field and carries that field's text. */
  lemma MetaLinesText(d: RouteDescriptor)
    ensures forall k :: 0 <= k < |MetaLines(d)| ==>
              Truthy(Field(d, MetaLines(d)[k].kind)) &&
              MetaLines(d)[k].text == Field(d, MetaLines(d)[k].kind).value
  {
  }

  /** A label appears among the metadata lines exactly when its field is truthy. */
  lemma MetaLinesLabels(d: RouteDescriptor)
    ensures forall l: Label :: Truthy(Field(d, l)) <==> l in Labels(MetaLines(d))
  {
    var p, q, n := LineFor(d, Params), LineFor(d, Returns), LineFor(d, Notes);
    var ls := Labels(p + q + n);
    assert ls == Labels(p) + Labels(q) + Labels(n);
    assert Labels(p) == if Truthy(d.params) then [Params] else [];
    assert Labels(q) == if Truthy(d.response) then [Returns] else [];
    assert Labels(n) == if Truthy(d.notes) then [Notes] else [];
    forall l: Label ensures Truthy(Field(d, l)) <==> l in ls {
      assert l in ls <==> l in Labels(p) || l in Labels(q) || l in Labels(n);
    }
  }

  /** The metadata lines come in strictly increasing display order: Params, then
      Returns, then Notes. */
  lemma MetaLinesOrder(d: RouteDescriptor)
    ensures forall j, k :: 0 <= j < k < |MetaLines(d)| ==>
              Rank(MetaLines(d)[j].kind) < Rank(MetaLines(d)[k].kind)
  {
  }

  /** `renderRouteCard(route)`. */
  function RenderRouteCard(d: RouteDescriptor): (c: Card)
    ensures c.pathTag == Lower(d.path)
    ensures c.summaryTag == Lower(OrEmpty(d.summary))
    ensures c.headerMethod == d.httpMethod && c.headerPath == d.path
    ensures c.body == OrEmpty(d.summary)
    ensures c.meta == MetaLines(d)
  {
    Card(Lower(d.path), Lower(OrEmpty(d.summary)), d.httpMethod, d.path,
         OrEmpty(d.summary), MetaLines(d))
  }

  /** A descriptor without a truthy optional field renders no metadata line; one
      with all three renders Params, Returns, Notes in that order. */
  lemma MetaLinesExtremes(d: RouteDescriptor)
    ensures TruthyFields(d) == 0 ==> RenderRouteCard(d).meta == []
    ensures TruthyFields(d) == 3 ==>
              Labels(RenderRouteCard(d).meta) == [Params, Returns, Notes]
  {
    var m := RenderRouteCard(d).meta;
    if TruthyFields(d) == 3 {
      assert Rank(m[0].kind) < Rank(m[1].kind) < Rank(m[2].kind);
    }
  }

  /** An absent summary gives an empty body and an empty summary tag. */
  lemma AbsentSummary(d: RouteDescriptor)
    requires !Truthy(d.summary)
    ensures RenderRouteCard(d).body == "" && RenderRouteCard(d).summaryTag == ""
  {
  }

  /** The filter term: `value.trim().toLowerCase()`. */
  function Term(value: string): (t: string)
    ensures forall i :: 0 <= i < |t| ==> !IsAsciiUpper(t[i])
    ensures t == [] <==> AllWhitespace(value)
  {
    TrimEmptyIff(value);
    Lower(Trim(value))
  }

  /** The filter's match: the term occurs in the path tag or in the summary tag. */
  predicate Matches(c: Card, term: string)
    ensures Matches(c, term) <==>
              exists i :: OccursAt(c.pathTag, term, i) || OccursAt(c.summaryTag, term, i)
  {
    Includes(c.pathTag, term) || Includes(c.summaryTag, term)
  }

  /** The freshly built elements for `routes`, in order, none with a display set. */
  function Rendered(routes: seq<RouteDescriptor>): (r: seq<Element>)
    ensures |r| == |routes|
    ensures forall i :: 0 <= i < |routes| ==>
              r[i].card == RenderRouteCard(routes[i]) && r[i].display == Unset
  {
    seq(|routes|, i requires 0 <= i < |routes| => Element(RenderRouteCard(routes[i]), Unset))
  }

  /** One card's update in the filter listener. */
  function FilterOne(e: Element, term: string): (r: Element)
    ensures r.card == e.card && r.display != Unset
    ensures Shown(r) <==> Matches(e.card, term)
  {
    e.(display := if Matches(e.card, term) then Grid else Hidden)
  }

  /** The elements after one filter pass with `term`: the same cards, each shown
      exactly when it matches, and each with its display written. */
  function Filtered(es: seq<Element>, term: string): (r: seq<Element>)
    ensures |r| == |es|
    ensures forall i :: 0 <= i < |es| ==>
              r[i].card == es[i].card && r[i].display != Unset &&
              (Shown(r[i]) <==> Matches(es[i].card, term))
  {
    seq(|es|, i requires 0 <= i < |es| => FilterOne(es[i], term))
  }

  /** A sequence that agrees with one filter pass element by element is that pass. */
  lemma FilteredByElements(es: seq<Element>, after: seq<Element>, term: string)
    requires |after| == |es|
    requires forall j :: 0 <= j < |es| ==> after[j] == FilterOne(es[j], term)
    ensures after == Filtered(es, term)
  {
  }

  /** An empty or whitespace-only value shows every card. */
  lemma BlankQueryShowsAll(es: seq<Element>, value: string)
    requires AllWhitespace(value)
    ensures forall i :: 0 <= i < |es| ==> Shown(Filtered(es, Term(value))[i])
  {
    forall i | 0 <= i < |es| ensures Shown(Filtered(es, Term(value))[i]) {
      IncludesEmpty(es[i].card.pathTag);
    }
  }

  /** A filter pass depends only on the cards, not on what an earlier pass showed:
      typing and then clearing the input restores every card. */
  lemma FilterForgetsEarlierPass(es: seq<Element>, t1: string, t2: string)
    ensures Filtered(Filtered(es, t1), t2) == Filtered(es, t2)
  {
    var a := Filtered(Filtered(es, t1), t2);
    var b := Filtered(es, t2);
    forall i | 0 <= i < |es| ensures a[i] == b[i] {
      assert a[i].card == b[i].card;
    }
  }

  /** Values that differ only in letter case select the same cards. */
  lemma FilterIgnoresCase(es: seq<Element>, v1: string, v2: string)
    requires Lower(v1) == Lower(v2)
    ensures Filtered(es, Term(v1)) == Filtered(es, Term(v2))
  {
    LowerTrimCommute(v1);
    LowerTrimCommute(v2);
  }

  /** Typing more can only hide cards: a card shown for a query is shown for every
      part of that query. */
  lemma LongerQueryHidesMore(c: Card, longer: string, shorter: string)
    requires Includes(longer, shorter)
    requires Matches(c, longer)
    ensures Matches(c, shorter)
  {
    if Includes(c.pathTag, longer) {
      IncludesTransitive(c.pathTag, longer, shorter);
    } else {
      IncludesTransitive(c.summaryTag, longer, shorter);
    }
  }
}
