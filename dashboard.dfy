/**
 generate_dashboard: collects the distinct PipelineName dimension values of
 every listed metric, sorts them, and lays out one metric widget per
 pipeline, stacked three units apart, followed by one legend text widget.
 The paginated listing is passed in as its sequence of pages.
 */
module Dashboard {
  import opened Strings
  import opened Metrics

  /** One metric descriptor of a `list_metrics` page. */
  datatype ListedMetric = ListedMetric(metricName: string, dimensions: seq<Dimension>)

  /** A dashboard widget: its type, position and size, and for a metric
      widget its title. The widgets' other properties are fixed constants. */
  datatype Widget =
    | MetricWidget(x: int, y: int, width: int, height: int, title: string)
    | TextWidget(x: int, y: int, width: int, height: int)

  /** The body submitted as the dashboard: `{"widgets": [...]}`. */
  datatype DashboardBody = DashboardBody(widgets: seq<Widget>)

  /** The legend explaining the five metrics, beside the stacked widgets. */
  const Legend := TextWidget(18, 0, 6, 6)

  /** The PipelineName values among some dimensions. */
  function NamesInDimensions(dims: seq<Dimension>): set<string>
  {
    if dims == [] then {}
    else
      var last := dims[|dims| - 1];
      NamesInDimensions(dims[..|dims| - 1]) + (if last.name == PipelineName then {last.value} else {})
  }

  /** The PipelineName values on one page of the listing. */
  function NamesInPage(page: seq<ListedMetric>): set<string>
  {
    if page == [] then {} else NamesInPage(page[..|page| - 1]) + NamesInDimensions(page[|page| - 1].dimensions)
  }

  /** The PipelineName values across all pages: the set generate_dashboard collects. */
  function NamesInPages(pages: seq<seq<ListedMetric>>): set<string>
  {
    if pages == [] then {} else NamesInPages(pages[..|pages| - 1]) + NamesInPage(pages[|pages| - 1])
  }

  /** A name is collected from some dimensions exactly when one of them is a
      PipelineName dimension carrying it. */
  lemma {:induction false} NamesInDimensionsMembership(dims: seq<Dimension>, v: string)
    ensures v in NamesInDimensions(dims) <==> exists d :: 0 <= d < |dims| && dims[d] == Dimension(PipelineName, v)
    decreases |dims|
  {
    if dims != [] {
      var front := dims[..|dims| - 1];
      NamesInDimensionsMembership(front, v);
      assert forall d :: 0 <= d < |front| ==> front[d] == dims[d];
    }
  }

  /** A name is collected from a page exactly when some metric on it has a
      PipelineName dimension carrying it. */
  lemma {:induction false} NamesInPageMembership(page: seq<ListedMetric>, v: string)
    ensures v in NamesInPage(page) <==>
              exists m, d :: 0 <= m < |page| && 0 <= d < |page[m].dimensions| && page[m].dimensions[d] == Dimension(PipelineName, v)
    decreases |page|
  {
    if page != [] {
      var front := page[..|page| - 1];
      NamesInPageMembership(front, v);
      NamesInDimensionsMembership(page[|page| - 1].dimensions, v);
      assert forall m :: 0 <= m < |front| ==> front[m] == page[m];
    }
  }

  /** A name is collected exactly when some metric on some page has a
      PipelineName dimension carrying it. */
  lemma {:induction false} NamesInPagesMembership(pages: seq<seq<ListedMetric>>, v: string)
    ensures v in NamesInPages(pages) <==>
              exists p, m, d :: 0 <= p < |pages| && 0 <= m < |pages[p]| && 0 <= d < |pages[p][m].dimensions| &&
                                pages[p][m].dimensions[d] == Dimension(PipelineName, v)
    decreases |pages|
  {
    if pages != [] {
      var front := pages[..|pages| - 1];
      NamesInPagesMembership(front, v);
      NamesInPageMembership(pages[|pages| - 1], v);
      assert forall p :: 0 <= p < |front| ==> front[p] == pages[p];
    }
  }

  /** The three nested loops adding each PipelineName value to `pipeline_names`. */
  method CollectPipelineNames(pages: seq<seq<ListedMetric>>) returns (names: set<string>)
    ensures names == NamesInPages(pages)
  {
    names := {};
    for p := 0 to |pages|
      invariant names == NamesInPages(pages[..p])
    {
      var page := pages[p];
      for m := 0 to |page|
        invariant names == NamesInPages(pages[..p]) + NamesInPage(page[..m])
      {
        var dims := page[m].dimensions;
        for d := 0 to |dims|
          invariant names == NamesInPages(pages[..p]) + NamesInPage(page[..m]) + NamesInDimensions(dims[..d])
        {
          if dims[d].name == PipelineName {
            names := names + {dims[d].value};
          }
          assert dims[..d + 1][..d] == dims[..d];
        }
        assert dims[..|dims|] == dims;
        assert page[..m + 1][..m] == page[..m];
      }
      assert page[..|page|] == page;
      assert pages[..p + 1][..p] == pages[..p];
    }
    assert pages[..|pages|] == pages;
  }

  /** The names are in strictly increasing string order. */
  predicate StrictlyIncreasing(s: seq<string>)
  {
    forall i, j :: 0 <= i < j < |s| ==> LexLess(s[i], s[j])
  }

  /** The least name of a non-empty set in string order. */
  method Least(names: set<string>) returns (least: string)
    requires names != {}
    ensures least in names
    ensures forall n :: n in names && n != least ==> LexLess(least, n)
  {
    least :| least in names;
    var rest := names - {least};
    while rest != {}
      invariant rest <= names && least in names && least !in rest
      invariant forall n :: n in names - rest && n != least ==> LexLess(least, n)
      decreases rest
    {
      var x :| x in rest;
      if LexLess(x, least) {
        forall n | n in names - rest && n != least
          ensures LexLess(x, n)
        {
          LexLessTransitive(x, least, n);
        }
        least := x;
      } else {
        LexLessTotal(x, least);
      }
      rest := rest - {x};
    }
  }

  /** Python's `sorted()` on the set of names: each name once, in increasing order. */
  method SortNames(names: set<string>) returns (sorted: seq<string>)
    ensures StrictlyIncreasing(sorted)
    ensures forall n :: n in sorted <==> n in names
    ensures |sorted| == |names|
  {
    sorted := [];
    var rest := names;
    while rest != {}
      invariant rest <= names
      invariant forall n :: n in sorted <==> n in names && n !in rest
      invariant StrictlyIncreasing(sorted)
      invariant forall i, n :: 0 <= i < |sorted| && n in rest ==> LexLess(sorted[i], n)
      invariant |sorted| + |rest| == |names|
      decreases rest
    {
      var least := Least(rest);
      sorted := sorted + [least];
      rest := rest - {least};
    }
  }

  /** The loop appending one metric widget per name while `y` grows by 3. */
  method StackWidgets(names: seq<string>) returns (widgets: seq<Widget>)
    ensures |widgets| == |names|
    ensures forall k :: 0 <= k < |names| ==> widgets[k] == MetricWidget(0, 3 * k, 18, 3, names[k])
  {
    widgets := [];
    var y := 0;
    for k := 0 to |names|
      invariant |widgets| == k && y == 3 * k
      invariant forall i :: 0 <= i < k ==> widgets[i] == MetricWidget(0, 3 * i, 18, 3, names[i])
    {
      widgets := widgets + [MetricWidget(0, y, 18, 3, names[k])];
      y := y + 3;
    }
  }

  /** generate_dashboard: one metric widget per distinct pipeline name, in
      sorted order, at x = 0, y = 0, 3, 6, ..., 18 wide and 3 high, titled
      with the name; then the legend. */
  method GenerateDashboard(pages: seq<seq<ListedMetric>>) returns (dashboard: DashboardBody)
    ensures |dashboard.widgets| == |NamesInPages(pages)| + 1
    ensures forall k :: 0 <= k < |dashboard.widgets| - 1 ==>
              dashboard.widgets[k].MetricWidget? && dashboard.widgets[k].title in NamesInPages(pages) &&
              dashboard.widgets[k].x == 0 && dashboard.widgets[k].y == 3 * k &&
              dashboard.widgets[k].width == 18 && dashboard.widgets[k].height == 3
    ensures forall i, j :: 0 <= i < j < |dashboard.widgets| - 1 ==>
              LexLess(dashboard.widgets[i].title, dashboard.widgets[j].title)
    ensures forall n :: n in NamesInPages(pages) ==>
              exists k :: 0 <= k < |dashboard.widgets| - 1 && dashboard.widgets[k].title == n
    ensures dashboard.widgets[|dashboard.widgets| - 1] == Legend
  {
    var pipelineNames := CollectPipelineNames(pages);
    var sorted := SortNames(pipelineNames);
    var stacked := StackWidgets(sorted);
    var widgets := stacked + [Legend];
    assert forall k :: 0 <= k < |stacked| ==> widgets[k] == MetricWidget(0, 3 * k, 18, 3, sorted[k]);
    forall n | n in pipelineNames
      ensures exists k :: 0 <= k < |widgets| - 1 && widgets[k].title == n
    {
      var k :| 0 <= k < |sorted| && sorted[k] == n;
      assert widgets[k].title == n;
    }
    dashboard := DashboardBody(widgets);
  }

  /** Increasing order leaves no choice: two strictly increasing sequences
      of the same names are equal, so the layout depends only on the set. */
  lemma {:induction false} SortedOrderUnique(a: seq<string>, b: seq<string>)
    requires StrictlyIncreasing(a) && StrictlyIncreasing(b)
    requires forall n :: n in a <==> n in b
    ensures a == b
    decreases |a|
  {
    assert b != [] ==> b[0] in a;
    if a != [] {
      assert a[0] in a;
      assert b != [];
      assert b[0] in b;
      if a[0] != b[0] {
        var j :| 0 <= j < |b| && b[j] == a[0];
        var i :| 0 <= i < |a| && a[i] == b[0];
        assert LexLess(b[0], a[0]);
        assert LexLess(a[0], b[0]);
        LexLessAsymmetric(a[0], b[0]);
      }
      forall n
        ensures n in a[1..] <==> n in b[1..]
      {
        if n in a[1..] {
          var k :| 1 <= k < |a| && a[k] == n;
          assert LexLess(a[0], n);
          LexLessIrreflexive(n);
          assert n in a && n in b;
          var j :| 0 <= j < |b| && b[j] == n;
          assert j != 0;
          assert b[1..][j - 1] == n;
        }
        if n in b[1..] {
          var k :| 1 <= k < |b| && b[k] == n;
          assert LexLess(b[0], n);
          LexLessIrreflexive(n);
          assert n in b && n in a;
          var i :| 0 <= i < |a| && a[i] == n;
          assert i != 0;
          assert a[1..][i - 1] == n;
        }
      }
      SortedOrderUnique(a[1..], b[1..]);
      assert a == [a[0]] + a[1..] && b == [b[0]] + b[1..];
    }
  }

  /** Pipelines "B" and "A" are laid out as "A" first, then "B". */
  lemma TwoPipelinesInOrder(sorted: seq<string>)
    requires StrictlyIncreasing(sorted)
    requires forall n :: n in sorted <==> n == "A" || n == "B"
    ensures sorted == ["A", "B"]
  {
    assert LexLess("A", "B");
    SortedOrderUnique(sorted, ["A", "B"]);
  }
}
