/** Building the training set of the air-quality interpolator.

    The per-city PM2.5 averages for 2020 are joined with a table of city
    coordinates. Cities without coordinates are dropped. For each kept city the
    join appends its latitude, longitude, name and average to four parallel
    lists; the two coordinate lists become the feature matrix X and the
    averages the target vector y. */
module Stations {

  /** One row of the per-city averages: a city and its mean PM2.5. */
  datatype CityAverage = CityAverage(city: string, pm25: real)

  /** A city coordinate in degrees. */
  datatype Coord = Coord(lat: real, long: real)

  datatype Option<T> = None | Some(value: T)

  /** The rows the join keeps, in input order: those whose city has coordinates. */
  function Kept(rows: seq<CityAverage>, coords: map<string, Coord>): (kept: seq<CityAverage>)
    ensures |kept| <= |rows|
  {
    if rows == [] then []
    else
      var last := rows[|rows| - 1];
      Kept(rows[..|rows| - 1], coords) + (if last.city in coords then [last] else [])
  }

  /** The positions, in the input, of the rows the join keeps. */
  ghost function KeptIndices(rows: seq<CityAverage>, coords: map<string, Coord>): seq<nat>
  {
    if rows == [] then []
    else
      var n := |rows| - 1;
      KeptIndices(rows[..n], coords) + (if rows[n].city in coords then [n] else [])
  }

  /** The kept rows are exactly the order-preserving subsequence of the input
      made of the rows whose city is in the table: row k of the result is input
      row KeptIndices[k], those positions increase strictly, and a position is
      among them exactly when its city has coordinates. */
  lemma {:induction false} KeptIsFilteredSubsequence(rows: seq<CityAverage>, coords: map<string, Coord>)
    ensures |KeptIndices(rows, coords)| == |Kept(rows, coords)|
    ensures forall k :: 0 <= k < |KeptIndices(rows, coords)| ==>
      KeptIndices(rows, coords)[k] < |rows| && Kept(rows, coords)[k] == rows[KeptIndices(rows, coords)[k]]
    ensures forall k, l :: 0 <= k < l < |KeptIndices(rows, coords)| ==>
      KeptIndices(rows, coords)[k] < KeptIndices(rows, coords)[l]
    ensures forall i :: 0 <= i < |rows| ==> (rows[i].city in coords <==> i in KeptIndices(rows, coords))
  {
    if rows != [] {
      var n := |rows| - 1;
      var prefix := rows[..n];
      KeptIsFilteredSubsequence(prefix, coords);
      assert forall i :: 0 <= i < n ==> prefix[i] == rows[i];
    }
  }

  /** A row survives the join exactly when its city has coordinates, and the
      join invents no rows. */
  lemma KeptMembership(rows: seq<CityAverage>, coords: map<string, Coord>)
    ensures forall r :: r in rows ==> (r in Kept(rows, coords) <==> r.city in coords)
    ensures forall r :: r in Kept(rows, coords) ==> r in rows
  {
  }

  /** The averages were grouped by city, so no city occurs twice. */
  ghost predicate DistinctCities(rows: seq<CityAverage>)
  {
    forall i, j :: 0 <= i < j < |rows| ==> rows[i].city != rows[j].city
  }

  /** With one row per city, the kept rows still name each city once, and the
      value kept for a city is that city's own average. */
  lemma KeptValueIsCityAverage(rows: seq<CityAverage>, coords: map<string, Coord>)
    requires DistinctCities(rows)
    ensures DistinctCities(Kept(rows, coords))
    ensures forall k, i ::
      0 <= k < |Kept(rows, coords)| && 0 <= i < |rows| && rows[i].city == Kept(rows, coords)[k].city
      ==> rows[i].pm25 == Kept(rows, coords)[k].pm25
  {
    var kept, idx := Kept(rows, coords), KeptIndices(rows, coords);
    KeptIsFilteredSubsequence(rows, coords);
    forall k, l | 0 <= k < l < |kept| ensures kept[k].city != kept[l].city {
      assert idx[k] < idx[l];
    }
    forall k, i | 0 <= k < |kept| && 0 <= i < |rows| && rows[i].city == kept[k].city
      ensures rows[i].pm25 == kept[k].pm25
    {
      assert rows[idx[k]] == kept[k];
      assert i == idx[k];
    }
  }

  /** The join loop: walk the averages in order and, for every city in the
      coordinate table, append its latitude, longitude, name and average. */
  method Join(rows: seq<CityAverage>, coords: map<string, Coord>)
    returns (latList: seq<real>, longList: seq<real>, finalCities: seq<string>, finalPm: seq<real>)
    ensures |latList| == |longList| == |finalCities| == |finalPm| == |Kept(rows, coords)|
    ensures forall k :: 0 <= k < |finalCities| ==>
      finalCities[k] == Kept(rows, coords)[k].city && finalPm[k] == Kept(rows, coords)[k].pm25
    ensures forall k :: 0 <= k < |finalCities| ==>
      finalCities[k] in coords
      && latList[k] == coords[finalCities[k]].lat
      && longList[k] == coords[finalCities[k]].long
  {
    latList, longList, finalCities, finalPm := [], [], [], [];
    for i := 0 to |rows|
      invariant |latList| == |longList| == |finalCities| == |finalPm| == |Kept(rows[..i], coords)|
      invariant forall k :: 0 <= k < |finalCities| ==>
        finalCities[k] == Kept(rows[..i], coords)[k].city && finalPm[k] == Kept(rows[..i], coords)[k].pm25
      invariant forall k :: 0 <= k < |finalCities| ==>
        finalCities[k] in coords
        && latList[k] == coords[finalCities[k]].lat
        && longList[k] == coords[finalCities[k]].long
    {
      var row := rows[i];
      assert rows[..i + 1][..i] == rows[..i];
      if row.city in coords {
        latList := latList + [coords[row.city].lat];
        longList := longList + [coords[row.city].long];
        finalCities := finalCities + [row.city];
        finalPm := finalPm + [row.pm25];
      }
    }
    assert rows[..|rows|] == rows;
  }

  /** The feature matrix: one (latitude, longitude) row per position. A data
      frame refuses columns of different lengths, so then there is none. */
  function FeatureMatrix(latitudes: seq<real>, longitudes: seq<real>): (x: Option<seq<Coord>>)
    ensures x.Some? <==> |latitudes| == |longitudes|
    ensures x.Some? ==> |x.value| == |latitudes|
    ensures x.Some? ==> forall k :: 0 <= k < |latitudes| ==> x.value[k] == Coord(latitudes[k], longitudes[k])
  {
    if |latitudes| != |longitudes| then None
    else Some(seq(|latitudes|, k requires 0 <= k < |latitudes| => Coord(latitudes[k], longitudes[k])))
  }

  /** The whole preparation step after cleaning: join the averages with the
      coordinate table and package the result as features X and targets y.
      Row k of X is the coordinate of the k-th kept city and y[k] its average,
      so X and y always have the same number of rows. */
  method LoadAndPrep(cityAqi: seq<CityAverage>, coords: map<string, Coord>)
    returns (x: seq<Coord>, y: seq<real>)
    ensures |x| == |y| == |Kept(cityAqi, coords)|
    ensures forall k :: 0 <= k < |x| ==>
      Kept(cityAqi, coords)[k].city in coords
      && x[k] == coords[Kept(cityAqi, coords)[k].city]
      && y[k] == Kept(cityAqi, coords)[k].pm25
  {
    var latList, longList, finalCities, finalPm := Join(cityAqi, coords);
    var features := FeatureMatrix(latList, longList);
    x := features.value;
    y := finalPm;
  }
}
