/**
 * Searching providers around a point. The store filters providers by their
 * own columns (active, rating, rate, offered services, pet types and sizes);
 * the handler then drops providers whose profile has no location, measures
 * the distance from the search origin to each remaining profile, keeps those
 * within the radius and sorts them by increasing distance.
 */
module SearchProviders {
  import opened Schema

  /** The request body; every field may be absent. */
  datatype SearchInput = SearchInput(
    latitude: Option<real>,
    longitude: Option<real>,
    radius: Option<real>,
    serviceType: Option<string>,
    petType: Option<string>,
    petSize: Option<string>,
    minRating: Option<real>,
    maxRate: Option<real>)

  const DefaultRadius := 10.0
  const DefaultMinRating := 0.0
  const DefaultMaxRate := 1000.0

  /** A search once the origin is known and the defaults are in place. */
  datatype Criteria = Criteria(
    latitude: real,
    longitude: real,
    radius: real,
    serviceType: Option<string>,
    petType: Option<string>,
    petSize: Option<string>,
    minRating: real,
    maxRate: real)

  /**
   * The distance in kilometres, rounded to one decimal, from an origin
   * (latitude, longitude) to a point (latitude, longitude). The haversine
   * formula behind it is not part of the model.
   */
  type Distance = (real, real, real, real) -> real

  /** A provider row as the query returns it, with its joined profile if there is one. */
  datatype Row = Row(provider: ServiceProvider, profile: Option<Profile>)

  /** A provider in the response, tagged with its distance from the origin. */
  datatype Match = Match(provider: ServiceProvider, profile: Profile, distance: real)

  datatype SearchResult = SearchResult(data: seq<Match>, count: nat)

  /** The search criteria, each absent bound replaced by its default. */
  function CriteriaOf(input: SearchInput): (c: Criteria)
    requires GivenNumber(input.latitude) && GivenNumber(input.longitude)
    ensures c.latitude == input.latitude.value && c.longitude == input.longitude.value
    ensures input.radius.None? ==> c.radius == DefaultRadius
    ensures input.minRating.None? ==> c.minRating == DefaultMinRating
    ensures input.maxRate.None? ==> c.maxRate == DefaultMaxRate
    ensures input.radius.Some? ==> c.radius == input.radius.value
    ensures input.minRating.Some? ==> c.minRating == input.minRating.value
    ensures input.maxRate.Some? ==> c.maxRate == input.maxRate.value
  {
    Criteria(
      input.latitude.value, input.longitude.value,
      input.radius.GetOr(DefaultRadius),
      input.serviceType, input.petType, input.petSize,
      input.minRating.GetOr(DefaultMinRating),
      input.maxRate.GetOr(DefaultMaxRate))
  }

  /** A list filter: skipped when nothing is asked for, otherwise the list must contain it. */
  predicate Offers(wanted: Option<string>, offered: seq<string>) {
    !Given(wanted) || wanted.value in offered
  }

  /**
   * The store-side filters. A provider without a rate fails the rate bound,
   * as a comparison with a null column does.
   */
  predicate QueryMatch(p: ServiceProvider, c: Criteria) {
    && p.isActive
    && c.minRating <= p.averageRating
    && p.hourlyRate.Some? && p.hourlyRate.value <= c.maxRate
    && Offers(c.serviceType, p.services)
    && Offers(c.petType, p.petTypes)
    && Offers(c.petSize, p.petSizes)
  }

  /** A joined profile with a latitude and a longitude, neither of them zero. */
  predicate Located(profile: Option<Profile>) {
    profile.Some? && GivenNumber(profile.value.latitude) && GivenNumber(profile.value.longitude)
  }

  /** A located row tagged with its distance from the origin. */
  function MatchOf(row: Row, c: Criteria, dist: Distance): Match
    requires Located(row.profile)
  {
    var profile := row.profile.value;
    Match(row.provider, profile, dist(c.latitude, c.longitude, profile.latitude.value, profile.longitude.value))
  }

  /** Everything a row needs to be in the response. */
  predicate Eligible(row: Row, c: Criteria, dist: Distance) {
    && QueryMatch(row.provider, c)
    && Located(row.profile)
    && MatchOf(row, c, dist).distance <= c.radius
  }

  /**
   * The reference definition of the response's contents: the eligible rows,
   * tagged, in query order.
   */
  function Selected(rows: seq<Row>, c: Criteria, dist: Distance): seq<Match> {
    if rows == [] then []
    else if Eligible(rows[0], c, dist) then [MatchOf(rows[0], c, dist)] + Selected(rows[1..], c, dist)
    else Selected(rows[1..], c, dist)
  }

  /** The provider query: the rows that pass the store-side filters. */
  function Query(rows: seq<Row>, c: Criteria): seq<Row> {
    if rows == [] then []
    else if QueryMatch(rows[0].provider, c) then [rows[0]] + Query(rows[1..], c)
    else Query(rows[1..], c)
  }

  /** Tagging each row with its distance; a row without a location maps to nothing and is dropped. */
  function Measure(rows: seq<Row>, c: Criteria, dist: Distance): seq<Match> {
    if rows == [] then []
    else if Located(rows[0].profile) then [MatchOf(rows[0], c, dist)] + Measure(rows[1..], c, dist)
    else Measure(rows[1..], c, dist)
  }

  /** The radius filter. */
  function WithinRadius(ms: seq<Match>, radius: real): seq<Match> {
    if ms == [] then []
    else if ms[0].distance <= radius then [ms[0]] + WithinRadius(ms[1..], radius)
    else WithinRadius(ms[1..], radius)
  }

  predicate SortedByDistance(ms: seq<Match>) {
    forall i, j | 0 <= i < j < |ms| :: ms[i].distance <= ms[j].distance
  }

  /** Places `m` before the first element at least as far, keeping `ms` sorted. */
  function Insert(m: Match, ms: seq<Match>): (r: seq<Match>)
    requires SortedByDistance(ms)
    ensures SortedByDistance(r)
    ensures multiset(r) == multiset(ms) + multiset{m}
    ensures r[0] == m || (ms != [] && r[0] == ms[0])
  {
    if ms == [] || m.distance <= ms[0].distance then
      PrependSorted(m, ms);
      [m] + ms
    else
      var rest := Insert(m, ms[1..]);
      assert ms == [ms[0]] + ms[1..];
      PrependSorted(ms[0], rest);
      [ms[0]] + rest
  }

  /** A sorted list stays sorted under an element no farther than its head. */
  lemma PrependSorted(x: Match, s: seq<Match>)
    requires SortedByDistance(s)
    requires s != [] ==> x.distance <= s[0].distance
    ensures SortedByDistance([x] + s)
  {
    var t := [x] + s;
    forall i, j | 0 <= i < j < |t| ensures t[i].distance <= t[j].distance {
      if i == 0 {
        assert t[j] == s[j - 1];
      } else {
        assert t[i] == s[i - 1] && t[j] == s[j - 1];
      }
    }
  }

  /**
   * The sort: increasing distance, a permutation of its input. Each element
   * goes before the equally distant ones that followed it, so equal
   * distances keep their order.
   */
  function SortByDistance(ms: seq<Match>): (r: seq<Match>)
    ensures SortedByDistance(r)
    ensures multiset(r) == multiset(ms)
  {
    if ms == [] then []
    else
      assert ms == [ms[0]] + ms[1..];
      Insert(ms[0], SortByDistance(ms[1..]))
  }

  /** The pipeline keeps exactly the eligible rows, in query order. */
  lemma {:induction false} PipelineSelects(rows: seq<Row>, c: Criteria, dist: Distance)
    ensures WithinRadius(Measure(Query(rows, c), c, dist), c.radius) == Selected(rows, c, dist)
  {
    if rows != [] {
      PipelineSelects(rows[1..], c, dist);
      var q := Query(rows[1..], c);
      if QueryMatch(rows[0].provider, c) {
        assert Query(rows, c) == [rows[0]] + q;
        assert ([rows[0]] + q)[0] == rows[0] && ([rows[0]] + q)[1..] == q;
        if Located(rows[0].profile) {
          var ms := Measure(q, c, dist);
          assert Measure(Query(rows, c), c, dist) == [MatchOf(rows[0], c, dist)] + ms;
          assert ([MatchOf(rows[0], c, dist)] + ms)[1..] == ms;
        }
      }
    }
  }

  /** A match is selected exactly when some eligible row produced it. */
  lemma {:induction false} SelectedMembers(rows: seq<Row>, c: Criteria, dist: Distance, m: Match)
    ensures m in Selected(rows, c, dist) <==>
      exists i | 0 <= i < |rows| :: Eligible(rows[i], c, dist) && MatchOf(rows[i], c, dist) == m
  {
    if rows != [] {
      SelectedMembers(rows[1..], c, dist, m);
      if exists i | 0 <= i < |rows| :: Eligible(rows[i], c, dist) && MatchOf(rows[i], c, dist) == m {
        var i :| 0 <= i < |rows| && Eligible(rows[i], c, dist) && MatchOf(rows[i], c, dist) == m;
        if i > 0 {
          assert rows[1..][i - 1] == rows[i];
        }
      }
      if exists i | 0 <= i < |rows[1..]| :: Eligible(rows[1..][i], c, dist) && MatchOf(rows[1..][i], c, dist) == m {
        var i :| 0 <= i < |rows[1..]| && Eligible(rows[1..][i], c, dist) && MatchOf(rows[1..][i], c, dist) == m;
        assert rows[i + 1] == rows[1..][i];
      }
    }
  }

  /**
   * The handler. It fails when the origin's latitude or longitude is absent
   * or zero, and then when the store refuses the provider query (`queried`
   * false, for instance a pet type outside the store's enumeration);
   * otherwise it answers the sorted matches and their number.
   */
  function Search(input: SearchInput, queried: bool, rows: seq<Row>, dist: Distance): (r: Result<SearchResult>)
    ensures r.Err? <==> !GivenNumber(input.latitude) || !GivenNumber(input.longitude) || !queried
    ensures r == Err(LocationRequired) <==> !GivenNumber(input.latitude) || !GivenNumber(input.longitude)
    ensures r == Err(StoreFailure) <==> GivenNumber(input.latitude) && GivenNumber(input.longitude) && !queried
    ensures r.Ok? ==> r.value.count == |r.value.data|
    ensures r.Ok? ==> SortedByDistance(r.value.data)
    ensures r.Ok? ==> multiset(r.value.data) == multiset(Selected(rows, CriteriaOf(input), dist))
  {
    if !GivenNumber(input.latitude) || !GivenNumber(input.longitude) then
      Err(LocationRequired)
    else if !queried then
      Err(StoreFailure)
    else
      var c := CriteriaOf(input);
      var data := SortByDistance(WithinRadius(Measure(Query(rows, c), c, dist), c.radius));
      PipelineSelects(rows, c, dist);
      Ok(SearchResult(data, |data|))
  }

  /**
   * A provider is in the response exactly when its row passes the store-side
   * filters, its profile has a location and it lies within the radius; it
   * appears tagged with that distance.
   */
  lemma SearchMembers(input: SearchInput, rows: seq<Row>, dist: Distance, m: Match)
    requires Search(input, true, rows, dist).Ok?
    ensures var c := CriteriaOf(input);
      m in Search(input, true, rows, dist).value.data <==>
        exists i | 0 <= i < |rows| :: Eligible(rows[i], c, dist) && MatchOf(rows[i], c, dist) == m
  {
    var c := CriteriaOf(input);
    var data := Search(input, true, rows, dist).value.data;
    assert m in data <==> m in multiset(data);
    assert m in Selected(rows, c, dist) <==> m in multiset(Selected(rows, c, dist));
    SelectedMembers(rows, c, dist, m);
  }

  /**
   * Every provider in the response is one of the query's rows, is active,
   * is rated at least the minimum, charges at most the maximum rate, offers
   * each requested service, pet type and size, has a located profile and lies
   * within the radius.
   */
  lemma SearchResultsQualify(input: SearchInput, rows: seq<Row>, dist: Distance, k: nat)
    requires Search(input, true, rows, dist).Ok?
    requires k < |Search(input, true, rows, dist).value.data|
    ensures var c := CriteriaOf(input);
      var m := Search(input, true, rows, dist).value.data[k];
      && (exists i | 0 <= i < |rows| :: rows[i].provider == m.provider && rows[i].profile == Some(m.profile))
      && m.provider.isActive
      && c.minRating <= m.provider.averageRating
      && m.provider.hourlyRate.Some? && m.provider.hourlyRate.value <= c.maxRate
      && (Given(input.serviceType) ==> input.serviceType.value in m.provider.services)
      && (Given(input.petType) ==> input.petType.value in m.provider.petTypes)
      && (Given(input.petSize) ==> input.petSize.value in m.provider.petSizes)
      && GivenNumber(m.profile.latitude) && GivenNumber(m.profile.longitude)
      && m.distance <= c.radius
  {
    var c := CriteriaOf(input);
    var m := Search(input, true, rows, dist).value.data[k];
    SearchMembers(input, rows, dist, m);
    var i :| 0 <= i < |rows| && Eligible(rows[i], c, dist) && MatchOf(rows[i], c, dist) == m;
    assert rows[i].provider == m.provider && rows[i].profile == Some(m.profile);
  }
}
