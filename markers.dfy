/**
 * The data part of turning earthquake features into circle markers. A feed
 * feature carries a GeoJSON position (longitude first, then latitude, then
 * possibly more numbers such as depth), a magnitude and a place name. Each
 * becomes a marker description: the position in latitude-longitude order,
 * a radius proportional to the magnitude, the classifier's colour, fixed
 * style options, and the values its popup shows. The map library object
 * that would be built from such a description is not modelled.
 */
module Markers {
  import opened Magnitude

  /**
   * A GeoJSON position: longitude, latitude and optionally further numbers.
   * Section 3.1.1 of RFC 7946 requires at least two elements.
   */
  type Position = p: seq<real> | |p| >= 2 witness [0.0, 0.0]

  datatype Geometry = Geometry(coordinates: Position)
  datatype Properties = Properties(mag: real, place: string)
  datatype Feature = Feature(geometry: Geometry, properties: Properties)

  /** A point in the map library's order: latitude first. */
  datatype LatLng = LatLng(lat: real, lng: real)

  /** What a marker's popup shows: the place heading and the magnitude. */
  datatype Popup = Popup(place: string, magnitude: real)

  /** A circle marker as handed to the map library. */
  datatype MarkerSpec = MarkerSpec(
    position: LatLng,
    radius: real,
    color: string,
    fillOpacity: real,
    weight: nat,
    popup: Popup)

  const MarkerFillOpacity: real := 0.5
  const MarkerWeight: nat := 1

  /** A latitude-longitude point written back in GeoJSON order. */
  function ToGeoJson(p: LatLng): seq<real>
  {
    [p.lng, p.lat]
  }

  /**
   * The marker for one feature. Its position, put back in GeoJSON order,
   * gives the feature's first two coordinates; its radius divided by the
   * scale factor gives the magnitude back; its colour is that of the bucket
   * the magnitude falls in; its style options are the fixed ones.
   */
  function ToMarkerSpec(feature: Feature): (marker: MarkerSpec)
    ensures ToGeoJson(marker.position) == feature.geometry.coordinates[..2]
    ensures marker.radius / MarkerScaleFactor == feature.properties.mag
    ensures marker.color == MagnitudeLevels[BucketIndex(feature.properties.mag)].color
    ensures marker.popup.place == feature.properties.place
    ensures marker.popup.magnitude == feature.properties.mag
    ensures marker.fillOpacity == MarkerFillOpacity && marker.weight == MarkerWeight
  {
    var coords := feature.geometry.coordinates;
    var longitude, latitude := coords[0], coords[1];
    var magnitude := feature.properties.mag;
    PickColorMatchesBucket(magnitude);
    MarkerSpec(
      LatLng(latitude, longitude),
      magnitude * MarkerScaleFactor,
      PickColorByMagnitude(magnitude),
      MarkerFillOpacity,
      MarkerWeight,
      Popup(feature.properties.place, magnitude))
  }

  /** One marker per feature, in the features' order. */
  function ConstructEarthquakeMarkers(quakeFeatures: seq<Feature>): (markers: seq<MarkerSpec>)
    ensures |markers| == |quakeFeatures|
    ensures forall i :: 0 <= i < |quakeFeatures| ==> markers[i] == ToMarkerSpec(quakeFeatures[i])
  {
    if quakeFeatures == [] then []
    else [ToMarkerSpec(quakeFeatures[0])] + ConstructEarthquakeMarkers(quakeFeatures[1..])
  }

  /**
   * The i-th marker swaps the i-th feature's longitude and latitude, takes
   * its colour from the classifier and its radius from the magnitude times
   * 4.5, and keeps the fixed style options.
   */
  lemma MarkerAt(quakeFeatures: seq<Feature>, i: nat)
    requires i < |quakeFeatures|
    ensures var f, m := quakeFeatures[i], ConstructEarthquakeMarkers(quakeFeatures)[i];
      && m.position.lat == f.geometry.coordinates[1]
      && m.position.lng == f.geometry.coordinates[0]
      && m.color == PickColorByMagnitude(f.properties.mag)
      && m.radius == f.properties.mag * 4.5
      && m.fillOpacity == 0.5 && m.weight == 1
  {
  }

  /** Markers of two feature lists laid end to end are the two marker lists laid end to end. */
  lemma {:induction false} MarkersAppend(a: seq<Feature>, b: seq<Feature>)
    ensures ConstructEarthquakeMarkers(a + b) == ConstructEarthquakeMarkers(a) + ConstructEarthquakeMarkers(b)
  {
    if a == [] {
      assert a + b == b;
    } else {
      assert (a + b)[1..] == a[1..] + b;
      MarkersAppend(a[1..], b);
    }
  }

  /** No features, no markers. */
  lemma NoFeaturesNoMarkers()
    ensures ConstructEarthquakeMarkers([]) == []
  {
  }

  /**
   * Size and colour agree: a marker at least as large as another never has
   * the colour of a lower magnitude bucket.
   */
  lemma LargerMarkerNotLowerBucket(f1: Feature, f2: Feature)
    requires ToMarkerSpec(f1).radius <= ToMarkerSpec(f2).radius
    ensures BucketIndex(f1.properties.mag) <= BucketIndex(f2.properties.mag)
  {
    var m1, m2 := f1.properties.mag, f2.properties.mag;
    assert m1 * MarkerScaleFactor <= m2 * MarkerScaleFactor;
    BucketIndexMonotone(m1, m2);
  }

  /**
   * A magnitude 2.5 event at longitude -104.9, latitude 39.7 gives a single
   * marker at (39.7, -104.9) with radius 11.25 and the third level's colour.
   */
  lemma DenverScenario()
    ensures var markers := ConstructEarthquakeMarkers(
        [Feature(Geometry([-104.9, 39.7]), Properties(2.5, "Denver"))]);
      && |markers| == 1
      && markers[0].position == LatLng(39.7, -104.9)
      && markers[0].radius == 11.25
      && markers[0].color == "#ffeb3b"
      && markers[0].popup == Popup("Denver", 2.5)
  {
  }
}
