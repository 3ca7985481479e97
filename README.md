# Earthquake map: magnitude classifier, legend and marker transform

This project models the part of the earthquake map page that computes
values, not the part that drives the map library. It covers three pieces.

- **Magnitude table and classifier** (module `Magnitude`). There are five
  levels, each with a colour and a range label. `PickColorByMagnitude` is the
  chain of strict tests `< 1`, `< 2`, `< 3`, `< 4`, with the last level as the
  fallback. It is proved equal to an independent reference definition: scan
  the upper bounds 1, 2, 3, 4 in order and take the first one that exceeds
  the magnitude. From that come the bucket ranges (both directions), the
  boundary behaviour and monotonicity.
- **Legend markup** (module `Legend`). `GenerateLegendHTML` maps each level
  to a fragment `<ul style="background-color: C"><span>R</span></ul>` and
  joins the fragments with the empty separator. It is proved equal to the
  plain in-order concatenation of the fragments. `LegendBoxHTML` is the
  string the legend box receives: a fixed heading followed by the legend of
  the magnitude table.
- **Feature-to-marker transform** (module `Markers`). Each GeoJSON feature
  becomes a `MarkerSpec` value. The position is swapped from
  `[longitude, latitude]` to latitude-longitude order. The radius is the
  magnitude times 4.5 and the colour comes from the classifier. The fixed
  options are fill opacity 0.5 and weight 1. The marker also keeps the place
  and magnitude its popup shows. There is one marker per feature, in order.

Magnitudes and coordinates are modelled as `real`. A GeoJSON position is a
sequence of at least two numbers (section 3.1.1 of RFC 7946). Only its first
two are read, so a third number such as depth is ignored.

static/js/logic.js has one palette, cyan/green/yellow/orange/red, and the
model uses it. The code gives every magnitude below 1, negative ones included, the
first level. The model follows the code here, not a reading in which the
buckets cover only non-negative magnitudes.

## Model

| member | source | states |
|---|---|---|
| `Magnitude.PickColorByMagnitude` | static/js/logic.js:57-63 | total: every magnitude, negatives included, gets one of the five table colours |
| `Magnitude.FirstBoundAbove` | static/js/logic.js:57-63 | reference scan: the result is the first bound exceeding the magnitude, every earlier bound is at most the magnitude, or no bound exceeds it |
| `Magnitude.BucketIndex` | static/js/logic.js:48-54 | the bucket found by the scan is a valid index into the five-level table |
| `Magnitude.BucketIndexIsRange` | static/js/logic.js:57-63 | the scan picks bucket i exactly when the magnitude lies in bucket i's half-open range (both directions) |
| `Magnitude.BucketIndexMonotone` | static/js/logic.js:57-63 | the chosen bucket index never decreases as the magnitude increases |
| `Magnitude.PickColorMatchesBucket` | static/js/logic.js:57-63 | the if-chain returns the colour of the bucket the reference scan finds |
| `Magnitude.LevelColorsDistinct` | static/js/logic.js:48-54 | the five colours are pairwise distinct, so a colour identifies its level |
| `Magnitude.PickColorIffInBucket` | static/js/logic.js:57-63 | the classifier returns level i's colour if and only if the magnitude is in bucket i |
| `Magnitude.BelowOneIsLowest` | static/js/logic.js:58 | a magnitude gets the first colour if and only if it is below 1, negatives included |
| `Magnitude.MiddleBuckets` | static/js/logic.js:59-61 | for i in 1..3, a magnitude gets level i's colour if and only if it is in [i, i+1) |
| `Magnitude.FourAndAboveIsHighest` | static/js/logic.js:62 | a magnitude gets the last colour if and only if it is at least 4, with no upper bound |
| `Magnitude.BoundariesGoUp` | static/js/logic.js:58-62 | the exact values 1, 2, 3 and 4 go to the higher bucket |
| `Legend.LegendEntry` | static/js/logic.js:30 | a fragment reads back, in order, as the `<ul style="background-color: ` prefix, the level's colour, the `"><span>` middle, the level's range label and the `</span></ul>` suffix |
| `Legend.Join` | static/js/logic.js:31 | joining no parts gives the empty string; otherwise the result starts with the first part and its length is the parts' total length plus one separator between each pair of neighbours |
| `Legend.JoinIsFirstThenSepParts` | static/js/logic.js:31 | a non-empty join is exactly the first part followed, for each later part in order, by one separator and then that part |
| `Legend.JoinEmptySeparatorIsConcat` | static/js/logic.js:31 | joining with the empty separator is the plain concatenation of the parts, for every list of parts |
| `Legend.GenerateLegendHTML` | static/js/logic.js:28-31 | mapping each level to its fragment and joining with the empty separator gives exactly the in-order concatenation of one fragment per level |
| `Legend.JoinedEntriesAreFragments` | static/js/logic.js:29-31 | joining the levels' fragments with the empty separator equals their plain in-order concatenation, for every level list |
| `Legend.FragmentsAppend` | static/js/logic.js:28-31 | concatenating fragments distributes over concatenating level lists |
| `Legend.LegendOfNothing` | static/js/logic.js:28-31 | an empty level list gives the empty string |
| `Legend.LegendAppend` | static/js/logic.js:28-31 | the legend of `a + b` is the legend of `a` followed by the legend of `b`, with no separator |
| `Legend.LegendAt` | static/js/logic.js:28-31 | level i's fragment sits whole between the legend of the levels before it and the legend of the levels after it |
| `Legend.MagnitudeLegend` | static/js/logic.js:40 | the table's legend is exactly its five fragments in order 0-1, 1-2, 2-3, 3-4, 4+ |
| `Legend.LegendBoxHTML` | static/js/logic.js:40 | the legend box content is the heading followed by the five table fragments in table order 0-1, 1-2, 2-3, 3-4, 4+ |
| `Markers.ToMarkerSpec` | static/js/logic.js:68-77 | the position read back in GeoJSON order gives the feature's first two coordinates; radius divided by 4.5 gives the magnitude; the colour is the colour of the magnitude's bucket; fill opacity and weight are the fixed 0.5 and 1; the popup carries the place and the magnitude |
| `Markers.ConstructEarthquakeMarkers` | static/js/logic.js:66-79 | one marker per feature, same length, the i-th marker built from the i-th feature |
| `Markers.MarkerAt` | static/js/logic.js:68-76 | marker i has the latitude and longitude of feature i in swapped order, the classifier's colour, radius mag * 4.5, fill opacity 0.5 and weight 1 |
| `Markers.MarkersAppend` | static/js/logic.js:66-79 | the transform keeps order: the markers of `a + b` are the markers of `a` followed by those of `b` |
| `Markers.NoFeaturesNoMarkers` | static/js/logic.js:66-79 | an empty feature list gives no markers |
| `Markers.LargerMarkerNotLowerBucket` | static/js/logic.js:70-74 | a marker at least as large as another never has a lower bucket colour |
| `Markers.DenverScenario` | static/js/logic.js:66-79 | a magnitude 2.5 event at (-104.9, 39.7) gives one marker at (39.7, -104.9), radius 11.25, colour `#ffeb3b`, popup values "Denver" and 2.5 |

## Left out

- Map library calls (tile layer, map view, layer control, legend control, DOM element creation, circle marker construction, popup binding, layer group): these build opaque foreign objects. The model keeps only the data given to them.
- The feed fetch with its success and failure continuations, the error log and the alert: network I/O and browser UI.
- The window resize listener and the layout refresh it triggers: event-loop plumbing.
- The assignment of the legend string to the legend box: a DOM mutation. `LegendBoxHTML` models the string it assigns.
- The fixed map centre (39.7417, -105.0707) and zoom 4.5: configuration passed to the map library, with no behaviour.
- A missing, `null` or `NaN` magnitude: JavaScript coerces these differently (`NaN` fails every `<` test and gets the last colour, `null` compares as 0 and gets the first). Magnitudes here are reals.
- Features without a geometry or without properties: section 3.2 of RFC 7946 allows a `null` geometry, and for such a feature the destructuring in static/js/logic.js:68-69 throws. The error leaves the render and reaches the fetch's catch, so no marker layer is drawn and the load-failure alert is shown. `Feature` here always carries both, so `ConstructEarthquakeMarkers` is total and cannot show that abort. Likewise a `null` place is shown as the text "null", which `Popup.place` (a string) cannot hold.
- Positions with fewer than two numbers: GeoJSON rules them out, and destructuring would yield `undefined`. `Position` requires at least two.
- Markers.ToMarkerSpec: the popup is modelled as the place and magnitude it shows, not its text, because the text depends on JavaScript's number-to-string conversion.
- IEEE-754 rounding of `mag * 4.5`: the radius is an exact real product.
- HTML escaping: the code has none. Colours, labels and place names are interpolated unescaped, and the model does the same.
