/** `getCoordinates` of the environmental-data batch: a profile's location text
    becomes coordinates, read directly when it is already "lat,lng" text and
    asked of the geocoding service otherwise. */
module Location {
  import opened Wrappers
  import opened JsText
  import opened JsNumber

  datatype Coordinate = Coordinate(lat: Quantity, lng: Quantity)

  /** One geocoding hit; the service returns latitude and longitude as text. */
  datatype Place = Place(lat: string, lon: string)

  /** What the geocoding service answers for a query: a list of hits, or a
      failure (network error, a body that is not JSON). */
  datatype GeoReply = LookupFailed | Places(places: seq<Place>)

  /** The geocoding service, as a function from query text to its answer. */
  type Geocoder = string -> GeoReply

  /** One group of the pattern, `-?\d+\.?\d*`: an optional minus, at least one
      digit, then optionally a dot followed by any number of digits. */
  predicate IsCoordinateText(t: string) {
    var k := if |t| > 0 && t[0] == '-' then 1 else 0;
    var a := LeadingDigits(t[k..]);
    && a >= 1
    && (k + a == |t| || (t[k + a] == '.' && AllDigits(t[k + a + 1..])))
  }

  /** The two groups of `^(-?\d+\.?\d*),\s*(-?\d+\.?\d*)$` when `s` matches it.
      The first group cannot hold a comma, so the pattern's comma is the first
      one; the second group cannot start with white space, so `\s*` takes all
      the white space after it. */
  function MatchPair(s: string): Option<(string, string)> {
    if ',' !in s then None
    else
      var i := IndexOf(s, ',');
      var left := s[..i];
      var right := TrimStart(s[i + 1..]);
      if IsCoordinateText(left) && IsCoordinateText(right) then Some((left, right)) else None
  }

  /** `getCoordinates(location)`: the matched groups through `parseFloat`, with
      no lookup; otherwise the first geocoding hit, and `null` when there is no
      hit or the lookup failed. */
  function GetCoordinates(location: string, geocode: Geocoder): Option<Coordinate> {
    match MatchPair(location)
    case Some((lat, lng)) => Some(Coordinate(ParseFloat(lat), ParseFloat(lng)))
    case None =>
      match geocode(location)
      case Places(ps) =>
        if |ps| > 0 then Some(Coordinate(ParseFloat(ps[0].lat), ParseFloat(ps[0].lon))) else None
      case LookupFailed => None
  }

  lemma CoordinateTextHasNoComma(t: string)
    requires IsCoordinateText(t)
    ensures ',' !in t && t != [] && !IsSpace(t[0])
  {
    var k := if t[0] == '-' then 1 else 0;
    var a := LeadingDigits(t[k..]);
    assert forall i :: 0 <= i < k + a ==> t[i] == '-' || IsDigit(t[i]) by {
      forall i | 0 <= i < k + a ensures t[i] == '-' || IsDigit(t[i]) {
        if i >= k {
          assert t[k..][..a][i - k] == t[i];
        }
      }
    }
    if k + a < |t| {
      assert forall i :: k + a < i < |t| ==> IsDigit(t[i]) by {
        forall i | k + a < i < |t| ensures IsDigit(t[i]) {
          assert t[k + a + 1..][i - (k + a + 1)] == t[i];
        }
      }
    }
  }

  lemma {:induction false} TrimStartAfterSpace(gap: string, rest: string)
    requires AllSpace(gap) && (rest == [] || !IsSpace(rest[0]))
    ensures TrimStart(gap + rest) == rest
  {
    if gap != [] {
      assert (gap + rest)[1..] == gap[1..] + rest;
      TrimStartAfterSpace(gap[1..], rest);
    } else {
      assert gap + rest == rest;
    }
  }

  /** The parts `MatchPair` splits `s` into, whether or not they are groups. */
  lemma MatchPairParts(left: string, gap: string, right: string)
    requires ',' !in left && AllSpace(gap) && (right == [] || !IsSpace(right[0]))
    ensures var s := left + "," + gap + right;
      ',' in s && s[..IndexOf(s, ',')] == left && TrimStart(s[IndexOf(s, ',') + 1..]) == right
  {
    var s := left + "," + gap + right;
    assert s == left + [','] + (gap + right);
    IndexOfAfter(left, ',', gap + right);
    assert s[|left|] == ',';
    assert s[..|left|] == left;
    assert s[|left| + 1..] == gap + right;
    TrimStartAfterSpace(gap, right);
  }

  /** Every string of the pattern's shape is recognised, with its own groups. */
  lemma MatchPairComplete(left: string, gap: string, right: string)
    requires IsCoordinateText(left) && AllSpace(gap) && IsCoordinateText(right)
    ensures MatchPair(left + "," + gap + right) == Some((left, right))
  {
    CoordinateTextHasNoComma(left);
    CoordinateTextHasNoComma(right);
    MatchPairParts(left, gap, right);
  }

  /** `s` is `left`, a comma, white space and `right`, in that order. */
  ghost predicate Shaped(s: string, left: string, right: string) {
    exists gap :: AllSpace(gap) && s == left + "," + gap + right
  }

  /** Everything recognised has the pattern's shape: first group, comma, white
      space, second group. */
  lemma MatchPairSound(s: string, left: string, right: string)
    requires MatchPair(s) == Some((left, right))
    ensures IsCoordinateText(left) && IsCoordinateText(right)
    ensures Shaped(s, left, right)
  {
    MatchedComma(s, left, right);
    TrimmedTail(s, left, right);
  }

  /** What a match is made of: the first comma, the text before it, and
      the text after it with its leading white space dropped. */
  lemma MatchedComma(s: string, left: string, right: string)
    requires MatchPair(s) == Some((left, right))
    ensures |left| < |s| && s[|left|] == ',' && left == s[..|left|]
    ensures right == TrimStart(s[|left| + 1..])
    ensures IsCoordinateText(left) && IsCoordinateText(right)
  {
    var i := IndexOf(s, ',');
    assert |left| == i;
  }

  /** Text before a comma, and the text after it with its leading white
      space dropped, make up the shape. */
  lemma TrimmedTail(s: string, left: string, right: string)
    requires |left| < |s| && s[|left|] == ',' && left == s[..|left|]
    requires right == TrimStart(s[|left| + 1..])
    ensures Shaped(s, left, right)
  {
    var i := |left|;
    var tail := s[i + 1..];
    var gap := TrimStartSplit(tail);
    SplitAt(s, i);
    AppendFour(left, [','], gap, right);
    assert s == left + "," + gap + right;
  }

  lemma AppendFour(a: string, b: string, c: string, d: string)
    ensures a + b + c + d == (a + b) + (c + d)
  {
  }

  /** A recognised group is a number `parseFloat` reads in full. */
  lemma CoordinateTextParses(t: string)
    requires IsCoordinateText(t)
    ensures ParseFloat(t).Finite?
  {
    CoordinateTextHasNoComma(t);
    assert TrimStart(t) == t;
    var k := if t[0] == '-' then 1 else 0;
    var body := t[k..];
    assert IsDigit(body[0]);
    assert !StartsWithInfinity(body);
    assert ScanLiteral(t) == ScanUnsigned(body, k == 1, k);
  }

  /** A plain decimal is a group of the pattern. */
  lemma DecimalTextIsCoordinateText(negative: bool, whole: string, frac: string)
    requires whole != [] && AllDigits(whole) && AllDigits(frac)
    ensures IsCoordinateText(DecimalText(negative, whole, frac))
  {
    var t := DecimalText(negative, whole, frac);
    var k := if negative then 1 else 0;
    var rest: string := if frac == [] then "" else "." + frac;
    assert t[k..] == whole + rest;
    LeadingDigitsOf(whole, rest);
    if frac != [] {
      assert t[k + |whole|] == '.';
      assert t[k + |whole| + 1..] == frac;
    }
  }

  /** The fast path never consults the geocoder: for text the pattern matches,
      every geocoder gives the same, finite, coordinates. */
  lemma FastPathIgnoresGeocoder(location: string, g1: Geocoder, g2: Geocoder)
    requires MatchPair(location).Some?
    ensures GetCoordinates(location, g1) == GetCoordinates(location, g2)
    ensures var c := GetCoordinates(location, g1); c.Some? && c.value.lat.Finite? && c.value.lng.Finite?
  {
    var (lat, lng) := MatchPair(location).value;
    MatchedComma(location, lat, lng);
    CoordinateTextParses(lat);
    CoordinateTextParses(lng);
  }

  /** "lat,lng" text written from two decimals, with any white space after the
      comma, reads back as exactly those two numbers, whatever the geocoder. */
  lemma FastPathRoundTrip(latNeg: bool, latWhole: string, latFrac: string,
                          lngNeg: bool, lngWhole: string, lngFrac: string,
                          gap: string, geocode: Geocoder)
    requires latWhole != [] && AllDigits(latWhole) && AllDigits(latFrac)
    requires lngWhole != [] && AllDigits(lngWhole) && AllDigits(lngFrac)
    requires AllSpace(gap)
    ensures GetCoordinates(DecimalText(latNeg, latWhole, latFrac) + "," + gap + DecimalText(lngNeg, lngWhole, lngFrac), geocode)
      == Some(Coordinate(Finite(DecimalValue(latNeg, latWhole, latFrac)), Finite(DecimalValue(lngNeg, lngWhole, lngFrac))))
  {
    DecimalTextIsCoordinateText(latNeg, latWhole, latFrac);
    DecimalTextIsCoordinateText(lngNeg, lngWhole, lngFrac);
    MatchPairComplete(DecimalText(latNeg, latWhole, latFrac), gap, DecimalText(lngNeg, lngWhole, lngFrac));
    ParseFloatDecimalText(latNeg, latWhole, latFrac);
    ParseFloatDecimalText(lngNeg, lngWhole, lngFrac);
  }

  /** Text the pattern does not match is looked up, and a failed or empty
      lookup gives no coordinates. */
  lemma SlowPathMiss(location: string, geocode: Geocoder)
    requires MatchPair(location).None?
    requires geocode(location) == LookupFailed || geocode(location) == Places([])
    ensures GetCoordinates(location, geocode).None?
  {
  }

  /** Text the pattern does not match takes the first geocoding hit. */
  lemma SlowPathHit(location: string, geocode: Geocoder)
    requires MatchPair(location).None?
    requires geocode(location).Places? && |geocode(location).places| > 0
    ensures var p := geocode(location).places[0];
      GetCoordinates(location, geocode) == Some(Coordinate(ParseFloat(p.lat), ParseFloat(p.lon)))
  {
  }
}
