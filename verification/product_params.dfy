/** The category query of the product listing request
    (src/services/products.ts, generateParams). */
module ProductParams {
  import opened Strings

  const CategoryPrefix: string := "?category="

  /** generateParams: nothing for no categories, otherwise
      "?category=" followed by the categories joined with ','. */
  function GenerateParams(categories: seq<string>): (r: string)
    ensures r == "" <==> categories == []
    ensures categories != [] ==> r == CategoryPrefix + Join(categories)
  {
    if |categories| == 0 then "" else CategoryPrefix + Join(categories)
  }

  /** A single category c gives exactly "?category=" + c. */
  lemma SingleCategory(c: string)
    ensures GenerateParams([c]) == CategoryPrefix + c
  {
  }

  /** Reading the category list back out of the query text: when no
      category contains a comma, the text after "?category=" splits into
      exactly the original list. */
  lemma ParamsRoundTrip(categories: seq<string>)
    requires categories != []
    requires forall i :: 0 <= i < |categories| ==> ',' !in categories[i]
    ensures |GenerateParams(categories)| >= |CategoryPrefix|
    ensures GenerateParams(categories)[..|CategoryPrefix|] == CategoryPrefix
    ensures Split(GenerateParams(categories)[|CategoryPrefix|..]) == categories
  {
    var r := GenerateParams(categories);
    assert r[|CategoryPrefix|..] == Join(categories);
    SplitJoin(categories);
  }
}
