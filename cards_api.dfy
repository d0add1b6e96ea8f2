/** The cards API: the recommendations endpoint copies the catalog, puts the
    copy in a random order and answers with its first five cards. The random
    order is the `shuffled` argument: any rearrangement of the catalog. */
module CardsApi {
  import opened Common
  import opened CardTypes
  import CardsData

  /** `ApiResponse<T>` */
  datatype ApiResponse<T> = ApiResponse(success: bool, data: Option<T>, error: Option<string>)

  /** How many cards the endpoint answers with at most. */
  const RecommendationCount: nat := 5

  /** `shuffled` holds the same cards as `catalog`, each as often. */
  predicate IsShuffleOf(shuffled: seq<CardReadable>, catalog: seq<CardReadable>)
  {
    multiset(shuffled) == multiset(catalog)
  }

  /** `array.slice(0, n)`, which stops early at the end of a shorter array. */
  function Take<T>(s: seq<T>, n: nat): (r: seq<T>)
    ensures |r| == Min(n, |s|)
    ensures r == s[..|r|]
    ensures multiset(r) <= multiset(s)
  {
    var k := Min(n, |s|);
    PrefixMultiset(s, k);
    s[..k]
  }

  lemma PrefixMultiset<T>(s: seq<T>, k: nat)
    requires k <= |s|
    ensures multiset(s[..k]) <= multiset(s)
  {
    assert s == s[..k] + s[k..];
  }

  /** `cardsRouter.getRecommendations` */
  function GetRecommendations(catalog: seq<CardReadable>, shuffled: seq<CardReadable>)
    : (r: ApiResponse<seq<CardReadable>>)
    requires IsShuffleOf(shuffled, catalog)
    ensures r.success && r.data.Some? && r.error.None?
    ensures |r.data.value| == Min(RecommendationCount, |catalog|)
    ensures r.data.value <= shuffled
    ensures multiset(r.data.value) <= multiset(catalog)
    ensures forall c :: c in r.data.value ==> c in catalog
    ensures |catalog| <= RecommendationCount ==> multiset(r.data.value) == multiset(catalog)
  {
    assert |shuffled| == |multiset(shuffled)| == |catalog|;
    var top := Take(shuffled, RecommendationCount);
    assert |catalog| <= RecommendationCount ==> top == shuffled;
    forall c | c in top ensures c in catalog {
      assert c in multiset(top);
    }
    ApiResponse(true, Some(top), None)
  }

  /** An empty catalog is not an error: the answer is an empty list. */
  lemma EmptyCatalogSucceeds()
    ensures GetRecommendations([], []) == ApiResponse(true, Some([]), None)
  {
  }

  /** With the shipped two-card catalog, every answer holds exactly both
      cards, in one of the two orders. */
  lemma {:induction false} CurrentCatalogAnswer(shuffled: seq<CardReadable>)
    requires IsShuffleOf(shuffled, CardsData.Catalog)
    ensures var data := GetRecommendations(CardsData.Catalog, shuffled).data.value;
      data == [CardsData.AxisAtlas, CardsData.AxisMagnus] ||
      data == [CardsData.AxisMagnus, CardsData.AxisAtlas]
  {
    var atlas, magnus := CardsData.AxisAtlas, CardsData.AxisMagnus;
    assert atlas != magnus by { assert atlas.id[6] != magnus.id[6]; }
    var m := multiset(CardsData.Catalog);
    assert m == multiset{atlas, magnus};
    assert |shuffled| == 2 by { assert |multiset(shuffled)| == |m|; }
    assert shuffled == [shuffled[0], shuffled[1]];
    assert multiset(shuffled) == multiset{shuffled[0], shuffled[1]};
    assert shuffled[0] in m && shuffled[1] in m;
    assert shuffled[0] != shuffled[1] by {
      assert m[atlas] == 1 && m[magnus] == 1;
    }
  }
}
