/**
  The category page of the storefront: it reads the category label of every
  product, counts the products per distinct label, and shows one card per
  label with an icon, a colour gradient and a link to the filtered listing.
 */
module Categories {
  import opened Wrappers

  /** One card of the page: a label and how many fetched products carry it. */
  datatype CategoryStat = CategoryStat(categoria: string, count: nat)

  /**
    What the read of the product table returns: an error, or a payload that
    may be null. Each row is reduced to its (non-null) category label.
   */
  datatype QueryResult = QueryFailed | QueryOk(data: Option<seq<string>>)

  /** The rows to count: a null payload counts as no rows. */
  function RowsOf(data: Option<seq<string>>): (rows: seq<string>)
    ensures data.None? ==> rows == []
    ensures data.Some? ==> rows == data.value
  {
    match data
    case None => []
    case Some(rows) => rows
  }

  // ---------------------------------------------------------------------------
  // Counting
  // ---------------------------------------------------------------------------

  /**
    The reduce over the fetched rows: one table entry per distinct label,
    incremented once per row carrying it.
   */
  method Tally(data: seq<string>) returns (counts: map<string, nat>)
    ensures forall c :: c in counts <==> c in data
    ensures forall c :: c in counts ==> counts[c] == multiset(data)[c] && counts[c] >= 1
  {
    counts := map[];
    for i := 0 to |data|
      invariant forall c :: c in counts <==> c in data[..i]
      invariant forall c :: c in counts ==> counts[c] == multiset(data[..i])[c]
    {
      var cat := data[i];
      counts := counts[cat := (if cat in counts then counts[cat] else 0) + 1];
      assert data[..i + 1] == data[..i] + [cat];
    }
    assert data[..|data|] == data;
  }

  /** The labels of a list of cards. */
  function Labels(stats: seq<CategoryStat>): (labels: set<string>)
    ensures forall i :: 0 <= i < |stats| ==> stats[i].categoria in labels
    ensures forall c :: c in labels ==> exists i :: 0 <= i < |stats| && stats[i].categoria == c
  {
    set i | 0 <= i < |stats| :: stats[i].categoria
  }

  /** No label appears on two cards. */
  predicate DistinctLabels(stats: seq<CategoryStat>)
  {
    forall i, j :: 0 <= i < j < |stats| ==> stats[i].categoria != stats[j].categoria
  }

  /** Appending a card adds its label, and keeps labels distinct when the label is new. */
  lemma AppendCard(stats: seq<CategoryStat>, card: CategoryStat)
    ensures Labels(stats + [card]) == Labels(stats) + {card.categoria}
    ensures DistinctLabels(stats) && card.categoria !in Labels(stats) ==> DistinctLabels(stats + [card])
  {
    var longer := stats + [card];
    forall l | l in Labels(longer)
      ensures l in Labels(stats) + {card.categoria}
    {
      var i :| 0 <= i < |longer| && longer[i].categoria == l;
      if i < |stats| {
        assert stats[i].categoria == l;
      }
    }
    forall l | l in Labels(stats)
      ensures l in Labels(longer)
    {
      var i :| 0 <= i < |stats| && stats[i].categoria == l;
      assert longer[i] == stats[i];
    }
    assert longer[|stats|] == card;
  }

  /**
    Turning the count table into cards, one per entry. The order in which the
    entries come out is left open: any order is a possible outcome.
   */
  method Entries(counts: map<string, nat>) returns (stats: seq<CategoryStat>)
    ensures |stats| == |counts|
    ensures DistinctLabels(stats)
    ensures Labels(stats) == counts.Keys
    ensures forall i :: 0 <= i < |stats| ==> stats[i].count == counts[stats[i].categoria]
  {
    stats := [];
    var remaining := counts.Keys;
    while remaining != {}
      invariant remaining <= counts.Keys
      invariant Labels(stats) == counts.Keys - remaining
      invariant |stats| + |remaining| == |counts.Keys|
      invariant DistinctLabels(stats)
      invariant forall i :: 0 <= i < |stats| ==> stats[i].categoria in counts && stats[i].count == counts[stats[i].categoria]
      decreases |remaining|
    {
      var c :| c in remaining;
      var card := CategoryStat(c, counts[c]);
      AppendCard(stats, card);
      stats := stats + [card];
      remaining := remaining - {c};
    }
  }

  /**
    `stats` is a correct card list for the fetched rows `data`: every
    distinct label of `data` on exactly one card, no other card, and each
    card's count the number of rows carrying its label.
   */
  ghost predicate ListsTally(stats: seq<CategoryStat>, data: seq<string>)
  {
    && DistinctLabels(stats)
    && (forall i :: 0 <= i < |stats| ==> stats[i].categoria in data && stats[i].count == multiset(data)[stats[i].categoria])
    && (forall c :: c in data ==> c in Labels(stats))
  }

  /** The total of the counts on a list of cards. */
  function Sum(stats: seq<CategoryStat>): nat
  {
    if stats == [] then 0 else stats[0].count + Sum(stats[1..])
  }

  /** The rows without those carrying label `c`. */
  function Without(data: seq<string>, c: string): (r: seq<string>)
    ensures |r| + multiset(data)[c] == |data|
    ensures multiset(r) == multiset(data)[c := 0]
  {
    if data == [] then []
    else
      assert data == [data[0]] + data[1..];
      if data[0] == c then Without(data[1..], c) else [data[0]] + Without(data[1..], c)
  }

  /** The counts on a correct card list add up to the number of fetched rows. */
  lemma {:induction false} ListsTallySum(stats: seq<CategoryStat>, data: seq<string>)
    requires ListsTally(stats, data)
    ensures Sum(stats) == |data|
    decreases |stats|
  {
    assert data != [] ==> data[0] in Labels(stats);
    if stats == [] {
      assert Labels(stats) == {};
    } else {
      var first, rest := stats[0], stats[1..];
      var others := Without(data, first.categoria);
      forall i | 0 <= i < |rest|
        ensures rest[i].categoria in others && rest[i].count == multiset(others)[rest[i].categoria]
      {
        assert rest[i] == stats[i + 1];
        assert rest[i].categoria != first.categoria;
        assert multiset(others)[rest[i].categoria] == multiset(data)[rest[i].categoria];
      }
      forall c | c in others
        ensures c in Labels(rest)
      {
        assert multiset(others)[c] > 0;
        assert c in data && c != first.categoria;
        var i :| 0 <= i < |stats| && stats[i].categoria == c;
        assert i != 0;
        assert rest[i - 1].categoria == c;
      }
      assert ListsTally(rest, others);
      ListsTallySum(rest, others);
    }
  }

  /** On distinct labels, there are as many labels as cards. */
  lemma {:induction false} DistinctLabelsCount(stats: seq<CategoryStat>)
    requires DistinctLabels(stats)
    ensures |Labels(stats)| == |stats|
    decreases |stats|
  {
    if stats != [] {
      var rest := stats[1..];
      DistinctLabelsCount(rest);
      assert Labels(stats) == {stats[0].categoria} + Labels(rest);
      assert stats[0].categoria !in Labels(rest);
    }
  }

  /** The (label, count) pairs determined by the rows, independent of any order. */
  ghost function TallyPairs(data: seq<string>): set<CategoryStat>
  {
    set c | c in data :: CategoryStat(c, multiset(data)[c])
  }

  /**
    What a correct card list holds, whatever the entry order: exactly the
    pairs determined by the rows, one card per distinct label, every count
    at least 1, and the counts adding up to the number of rows.
   */
  lemma ListsTallyContents(stats: seq<CategoryStat>, data: seq<string>)
    requires ListsTally(stats, data)
    ensures (set s | s in stats) == TallyPairs(data)
    ensures Labels(stats) == (set c | c in data)
    ensures |stats| == |set c | c in data|
    ensures forall i :: 0 <= i < |stats| ==> stats[i].count >= 1
    ensures Sum(stats) == |data|
  {
    forall p | p in TallyPairs(data)
      ensures p in stats
    {
      var i :| 0 <= i < |stats| && stats[i].categoria == p.categoria;
      assert stats[i] == p;
    }
    assert Labels(stats) == (set c | c in data);
    DistinctLabelsCount(stats);
    ListsTallySum(stats, data);
  }

  /** Counting ["A", "A", "B"] gives A with 2 and B with 1, in some order. */
  lemma TallyOfTwoLabels(stats: seq<CategoryStat>)
    requires ListsTally(stats, ["A", "A", "B"])
    ensures |stats| == 2
    ensures CategoryStat("A", 2) in stats && CategoryStat("B", 1) in stats
  {
    var data := ["A", "A", "B"];
    ListsTallyContents(stats, data);
    assert (set c | c in data) == {"A", "B"};
    assert multiset(data)["A"] == 2 && multiset(data)["B"] == 1;
    assert CategoryStat("A", 2) in TallyPairs(data);
    assert CategoryStat("B", 1) in TallyPairs(data);
  }

  /** Grouping is by exact equality: "Moda" and "moda" are two categories. */
  lemma TallyIsCaseSensitive(stats: seq<CategoryStat>)
    requires ListsTally(stats, ["Moda", "moda"])
    ensures |stats| == 2
    ensures CategoryStat("Moda", 1) in stats && CategoryStat("moda", 1) in stats
  {
    var data := ["Moda", "moda"];
    ListsTallyContents(stats, data);
    assert (set c | c in data) == {"Moda", "moda"};
    assert multiset(data)["Moda"] == 1 && multiset(data)["moda"] == 1;
    assert CategoryStat("Moda", 1) in TallyPairs(data);
    assert CategoryStat("moda", 1) in TallyPairs(data);
  }

  /** The count table and its entries for the fetched rows, as `fetchCategories` builds them. */
  method BuildCategoryStats(data: seq<string>) returns (stats: seq<CategoryStat>)
    ensures ListsTally(stats, data)
    ensures Sum(stats) == |data|
  {
    var counts := Tally(data);
    stats := Entries(counts);
    forall c | c in data
      ensures c in Labels(stats)
    {
      assert c in counts;
    }
    ListsTallySum(stats, data);
  }

  // ---------------------------------------------------------------------------
  // Icons, gradients, navigation
  // ---------------------------------------------------------------------------

  /** The icons a card can show. */
  datatype Icon = Sparkles | Home | Gamepad2 | Shirt | Smartphone | ShoppingBag

  /** The five labels with an icon of their own. */
  const IconMap: map<string, Icon> := map[
    "Beleza e Cuidados Pessoais" := Sparkles,
    "Casa e Decoração" := Home,
    "Diversão e Familia" := Gamepad2,
    "Estilo e Moda" := Shirt,
    "Tecnologia e Acessórios" := Smartphone
  ]

  /** The icon of a card: looked up by exact label, the shopping bag for any other label. */
  function CategoryIcon(categoria: string): (icon: Icon)
    ensures icon == ShoppingBag <==> categoria !in IconMap
    ensures categoria in IconMap ==> icon == IconMap[categoria]
  {
    if categoria in IconMap then IconMap[categoria] else ShoppingBag
  }

  /** The five listed labels get their icons; a label differing only in case does not. */
  lemma CategoryIconTable()
    ensures CategoryIcon("Beleza e Cuidados Pessoais") == Sparkles
    ensures CategoryIcon("Casa e Decoração") == Home
    ensures CategoryIcon("Diversão e Familia") == Gamepad2
    ensures CategoryIcon("Estilo e Moda") == Shirt
    ensures CategoryIcon("Tecnologia e Acessórios") == Smartphone
    ensures CategoryIcon("estilo e moda") == ShoppingBag
  {
  }

  /** The palette the cards cycle through. */
  const Gradients: seq<string> := [
    "from-pink-500 to-rose-500",
    "from-blue-500 to-cyan-500",
    "from-green-500 to-emerald-500",
    "from-yellow-500 to-orange-500",
    "from-purple-500 to-violet-500",
    "from-red-500 to-pink-500",
    "from-indigo-500 to-blue-500",
    "from-teal-500 to-green-500"
  ]

  /** The gradient of the card at position `index`: the palette, cycled. */
  function CategoryGradient(index: nat): (g: string)
    ensures g in Gradients
    ensures g == Gradients[index % |Gradients|]
  {
    Gradients[index % |Gradients|]
  }

  /** Positions eight apart share a gradient. */
  lemma GradientPeriodic(index: nat)
    ensures CategoryGradient(index + |Gradients|) == CategoryGradient(index)
  {
  }

  /** Neighbouring cards never share a gradient: the palette has no repeats. */
  lemma NeighbouringGradientsDiffer(index: nat)
    ensures CategoryGradient(index) != CategoryGradient(index + 1)
  {
  }

  const ListingRoute: string := "/categoria-lista?categoria="
  const TypeParameter: string := "&tipo=categoria"

  /**
    The URL a card navigates to: the listing route with the encoded label and
    the fixed type discriminator. `encode` stands for `encodeURIComponent`.
   */
  function CategoryUrl(categoria: string, encode: string -> string): (url: string)
    ensures |url| >= |ListingRoute| + |TypeParameter|
    ensures url[..|ListingRoute|] == ListingRoute
    ensures url[|url| - |TypeParameter|..] == TypeParameter
  {
    ListingRoute + encode(categoria) + TypeParameter
  }

  /** Reads the encoded label back out of a listing URL; None when the URL has another shape. */
  function CategoryParameter(url: string): (p: Option<string>)
    ensures p.Some? ==> |ListingRoute| + |p.value| + |TypeParameter| == |url|
  {
    if |url| >= |ListingRoute| + |TypeParameter|
       && url[..|ListingRoute|] == ListingRoute
       && url[|url| - |TypeParameter|..] == TypeParameter
    then Some(url[|ListingRoute|..|url| - |TypeParameter|])
    else None
  }

  /** The URL carries exactly the encoded label. */
  lemma CategoryUrlRoundTrip(categoria: string, encode: string -> string)
    ensures CategoryParameter(CategoryUrl(categoria, encode)) == Some(encode(categoria))
  {
  }

  /** With an injective encoder, different labels lead to different URLs. */
  lemma CategoryUrlInjective(a: string, b: string, encode: string -> string)
    requires forall x, y :: encode(x) == encode(y) ==> x == y
    requires a != b
    ensures CategoryUrl(a, encode) != CategoryUrl(b, encode)
  {
    CategoryUrlRoundTrip(a, encode);
    CategoryUrlRoundTrip(b, encode);
  }

  // ---------------------------------------------------------------------------
  // Page state
  // ---------------------------------------------------------------------------

  /**
    One mounted category page: the cards, the loading flag, and the URLs it
    has handed to the router, in order.
   */
  class CategoriesPage {
    var categories: seq<CategoryStat>
    var loading: bool
    var navigations: seq<string>

    /** Nothing is shown before the fetch settles; every card has its own label and a positive count. */
    ghost predicate Valid()
      reads this
    {
      && (loading ==> categories == [])
      && DistinctLabels(categories)
      && (forall i :: 0 <= i < |categories| ==> categories[i].count >= 1)
    }

    /** Mounting: no cards, loading. */
    constructor ()
      ensures Valid()
      ensures categories == [] && loading && navigations == []
    {
      categories := [];
      loading := true;
      navigations := [];
    }

    /**
      The fetch settles. On an error the cards stay as they were (empty on
      the one fetch a mount makes); otherwise they are the counted labels of
      the rows, a null payload counting as none. Loading ends either way.
     */
    method FetchCategories(result: QueryResult)
      requires Valid()
      modifies this
      ensures Valid()
      ensures !loading
      ensures navigations == old(navigations)
      ensures result.QueryFailed? ==> categories == old(categories)
      ensures result.QueryOk? ==> ListsTally(categories, RowsOf(result.data))
      ensures result.QueryOk? ==> Sum(categories) == |RowsOf(result.data)|
    {
      match result {
        case QueryFailed =>
        case QueryOk(data) =>
          var rows := RowsOf(data);
          var stats := BuildCategoryStats(rows);
          ListsTallyContents(stats, rows);
          categories := stats;
      }
      loading := false;
    }

    /**
      A click on a card, or on its button (which stops the event there, so the
      card's own handler does not run as well): one navigation to the listing.
     */
    method HandleCategoryClick(categoria: string, encode: string -> string)
      modifies this
      ensures navigations == old(navigations) + [CategoryUrl(categoria, encode)]
      ensures categories == old(categories) && loading == old(loading)
    {
      navigations := navigations + [CategoryUrl(categoria, encode)];
    }
  }

  /** A mount whose fetch fails shows no cards and stops loading. */
  method FailedFetchShowsNoCards() returns (cards: seq<CategoryStat>, stillLoading: bool)
    ensures cards == [] && !stillLoading
  {
    var page := new CategoriesPage();
    page.FetchCategories(QueryFailed);
    cards, stillLoading := page.categories, page.loading;
  }
}
