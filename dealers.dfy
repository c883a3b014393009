/** The selection rules of the dealer directory page: the location/city
    search, the list of cities offered for filtering, the decoding of a
    dealer's specialty ids and the colour band of its rating. */
module Dealers {
  import opened Wrappers
  import opened Schema
  import opened Strings
  import Seqs

  /** The free-text location test: an empty search matches every dealer;
      otherwise the lower-cased search must occur in the lower-cased address
      or the lower-cased city. */
  predicate MatchesLocation(d: Dealer, search: string) {
    search == [] ||
    Contains(ToLower(d.address), ToLower(search)) ||
    Contains(ToLower(d.city), ToLower(search))
  }

  /** The city drop-down: no city selected matches every dealer, a selected
      one only dealers in exactly that city. */
  predicate MatchesCity(d: Dealer, city: string) {
    city == [] || d.city == city
  }

  predicate Shown(d: Dealer, search: string, city: string) {
    MatchesLocation(d, search) && MatchesCity(d, city)
  }

  /** The dealers the page lists for a search text and a selected city. */
  function FilterDealers(dealers: seq<Dealer>, search: string, city: string): (r: seq<Dealer>)
    ensures forall d :: d in r <==> d in dealers && MatchesLocation(d, search) && MatchesCity(d, city)
    ensures Seqs.IsSubsequence(r, dealers)
    ensures city != [] ==> forall i :: 0 <= i < |r| ==> r[i].city == city
  {
    Seqs.Filter(dealers, (d: Dealer) => Shown(d, search, city))
  }

  /** A shown dealer is listed as often as it occurs in the input; any other
      dealer not at all. */
  lemma FilterDealersCount(dealers: seq<Dealer>, search: string, city: string, d: Dealer)
    ensures multiset(FilterDealers(dealers, search, city))[d] ==
      if Shown(d, search, city) then multiset(dealers)[d] else 0
  {
    Seqs.FilterCount(dealers, (e: Dealer) => Shown(e, search, city), d);
  }

  /** The empty string occurs in every string. */
  lemma EmptyContained(hay: string)
    ensures Contains(hay, "")
  {
    assert OccursAt(hay, "", 0);
  }

  /** The leading emptiness test is redundant: a dealer passes the location
      test exactly when the lower-cased search is a substring of its
      lower-cased address or city. */
  lemma MatchesLocationIffSubstring(d: Dealer, search: string)
    ensures MatchesLocation(d, search) <==>
      Contains(ToLower(d.address), ToLower(search)) || Contains(ToLower(d.city), ToLower(search))
  {
    if search == [] {
      assert ToLower(search) == "";
      EmptyContained(ToLower(d.address));
    }
  }

  /** With no search text and no city, every dealer is listed, in order. */
  lemma NoFilterListsAll(dealers: seq<Dealer>)
    ensures FilterDealers(dealers, "", "") == dealers
  {
    forall i | 0 <= i < |dealers| ensures Shown(dealers[i], "", "") { }
  }

  /** The cities offered for filtering: each dealer city once, in order of
      first appearance. */
  function Cities(dealers: seq<Dealer>): (r: seq<string>)
    ensures Seqs.Distinct(r)
    ensures forall i :: 0 <= i < |dealers| ==> dealers[i].city in r
    ensures forall c :: c in r <==> c in CityColumn(dealers)
    ensures forall c :: c in r ==> exists i :: 0 <= i < |dealers| && dealers[i].city == c
    ensures forall i, j :: 0 <= i < j < |r| ==>
      Seqs.FirstIndex(CityColumn(dealers), r[i]) < Seqs.FirstIndex(CityColumn(dealers), r[j])
  {
    var cs := CityColumn(dealers);
    var r := Seqs.Dedup(cs);
    assert forall i :: 0 <= i < |dealers| ==> cs[i] == dealers[i].city;
    assert forall c :: c in r ==> c in cs;
    r
  }

  /** The city of each dealer, in order. */
  function CityColumn(dealers: seq<Dealer>): (r: seq<string>)
    ensures |r| == |dealers|
    ensures forall i :: 0 <= i < |dealers| ==> r[i] == dealers[i].city
  {
    Seqs.MapSeq(dealers, (d: Dealer) => d.city)
  }

  /** Every city offered for filtering selects at least one dealer. */
  lemma CityOfferedIsInhabited(dealers: seq<Dealer>, c: string)
    requires c in Cities(dealers)
    ensures FilterDealers(dealers, "", c) != []
  {
    var i :| 0 <= i < |dealers| && dealers[i].city == c;
    assert Shown(dealers[i], "", c);
    assert dealers[i] in FilterDealers(dealers, "", c);
  }

  /** The name a specialty id stands for, if any. */
  function SpecialtyName(id: int): (r: Option<string>)
    ensures r.Some? <==> 1 <= id <= 7
  {
    match id
    case 1 => Some("Electronics")
    case 2 => Some("Metals")
    case 3 => Some("Plastic")
    case 4 => Some("Paper")
    case 5 => Some("Copper")
    case 6 => Some("Aluminum")
    case 7 => Some("Steel")
    case _ => None
  }

  /** The present values of a sequence of options, in order (what
      `.filter(Boolean)` keeps after a lookup that may miss; every name
      is non-empty). */
  function Present<T(!new)>(s: seq<Option<T>>): (r: seq<T>)
    ensures |r| <= |s|
    ensures forall x :: x in r <==> Some(x) in s
  {
    if s == [] then []
    else if s[0].Some? then [s[0].value] + Present(s[1..])
    else Present(s[1..])
  }

  /** A dealer's specialty names. `parsed` is the outcome of parsing the
      stored text as a list of ids: None when `JSON.parse` throws or yields
      a value that is not an array, which the page answers with the empty
      list. */
  function DealerSpecialties(parsed: Option<seq<int>>): (r: seq<string>)
    ensures parsed.None? ==> r == []
  {
    match parsed
    case None => []
    case Some(ids) => Present(Seqs.MapSeq(ids, SpecialtyName))
  }

  predicate IsSpecialtyId(id: int) {
    1 <= id <= 7
  }

  function KnownName(id: int): string {
    if IsSpecialtyId(id) then SpecialtyName(id).value else ""
  }

  /** The names of ids 1..7 in input order, every other id dropped. */
  lemma {:induction false} SpecialtiesAreKnownIdsInOrder(ids: seq<int>)
    ensures DealerSpecialties(Some(ids)) ==
      Seqs.MapSeq(Seqs.Filter(ids, IsSpecialtyId), KnownName)
  {
    if ids != [] {
      SpecialtiesAreKnownIdsInOrder(ids[1..]);
      var m := Seqs.MapSeq(ids, SpecialtyName);
      assert m[1..] == Seqs.MapSeq(ids[1..], SpecialtyName);
    }
  }

  /** The text colour class for a rating; a missing rating does not parse
      to a number and falls through to the lowest band. */
  function RatingColor(rating: Option<Hundredths>): (r: string)
    ensures r == "text-green-600" <==> rating.Some? && rating.value >= 450
    ensures r == "text-yellow-600" <==> rating.Some? && 400 <= rating.value < 450
    ensures r == "text-orange-600" <==> rating.None? || rating.value < 400
  {
    match rating
    case None => "text-orange-600"
    case Some(v) =>
      if v >= 450 then "text-green-600"
      else if v >= 400 then "text-yellow-600"
      else "text-orange-600"
  }

  /** The position of a colour band, lowest first. */
  function Band(color: string): nat {
    if color == "text-green-600" then 2
    else if color == "text-yellow-600" then 1
    else 0
  }

  /** A higher rating never gets a lower band. */
  lemma RatingColorMonotone(a: Hundredths, b: Hundredths)
    requires a <= b
    ensures Band(RatingColor(Some(a))) <= Band(RatingColor(Some(b)))
  {
  }
}
