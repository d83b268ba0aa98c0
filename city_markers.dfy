/** The city markers of the globe (`CityMarkers.tsx`): one marker per
    catalog city on the sphere of radius 5, a per-frame pass that caches each
    label's opacity and classifies each marker as clickable or not, and a
    click handler that hands a near city to the popup and flashes a far one. */
module CityMarkers {
  import opened Numerics
  import opened Coordinates
  import opened Wrappers

  /** A catalog entry (the `City` record of the static city catalog). */
  datatype City = City(name: string, country: string, population: nat, lat: real, lng: real, description: string)

  /** An entry of `cityData`: a city and its position in the scene. */
  datatype Marker = Marker(city: City, position: Vec3)

  /** The cursor a marker mesh advertises (`userData.cursor`). */
  datatype Cursor = Pointer | NotAllowed

  /** The id `setTimeout` hands back for a pending rejection flash. */
  type TimerId = nat

  /** Beyond this camera distance a marker cannot be clicked. */
  const MinInteractionDistance: real := 10.0
  /** The radius of the sphere the markers sit on. */
  const MarkerRadius: real := 5.0
  /** The fade starts at this camera distance ... */
  const FadeStart: real := 8.0
  /** ... and bottoms out at this one. */
  const FadeEnd: real := 20.0
  /** Opacity changes no larger than this are not written to the cache. */
  const OpacityEpsilon: real := 0.01

  /** `cityData`: one marker per city, in catalog order, each placed on the
      sphere of radius 5. */
  function CityData(cities: seq<City>, m: Math): (r: seq<Marker>)
    ensures |r| == |cities|
    ensures forall i :: 0 <= i < |r| ==>
      r[i].city == cities[i] && r[i].position == LatLngToVector3(cities[i].lat, cities[i].lng, MarkerRadius, m)
  {
    if cities == [] then []
    else
      var c := cities[|cities| - 1];
      CityData(cities[..|cities| - 1], m) + [Marker(c, LatLngToVector3(c.lat, c.lng, MarkerRadius, m))]
  }

  /** Every marker lies on the sphere of radius 5. */
  lemma {:induction false} MarkersOnSphere(cities: seq<City>, m: Math)
    requires Pythagorean(m)
    ensures forall i :: 0 <= i < |cities| ==> SquaredLength(CityData(cities, m)[i].position) == 25.0
  {
  }

  /** The way a marker reacts to the cursor at a given camera distance. */
  function CursorFor(distance: real): (c: Cursor)
    ensures c == Pointer <==> distance <= MinInteractionDistance
  {
    if distance > MinInteractionDistance then NotAllowed else Pointer
  }

  /** The cursor shown while hovering a mesh (`userData.cursor || 'pointer'`):
      a mesh not yet classified shows the pointer. */
  function HoverCursor(flag: Option<Cursor>): (c: Cursor)
    ensures flag.None? ==> c == Pointer
    ensures flag.Some? ==> c == flag.value
  {
    match flag
    case None => Pointer
    case Some(c) => c
  }

  /** The previous opacity as the frame pass reads it, `cache[name] || 1`:
      a missing entry, and a stored 0 (which is falsy), both read as 1. */
  function CachedOpacity(cache: map<string, real>, name: string): (r: real)
    ensures name in cache && cache[name] != 0.0 ==> r == cache[name]
    ensures name !in cache || cache[name] == 0.0 ==> r == 1.0
  {
    if name in cache && cache[name] != 0.0 then cache[name] else 1.0
  }

  /** The opacity a marker should have for the given camera. */
  function MarkerOpacity(marker: Marker, camera: Vec3, m: Math): (r: real)
    ensures 0.2 <= r <= 1.0
  {
    CalculateOpacity(Distance(camera, marker.position, m), FadeStart, FadeEnd).value
  }

  /** One city of the frame pass, on the opacity cache: either nothing is
      written or the city's own entry becomes its current opacity, and
      either way the cached value ends within 0.01 of that opacity. */
  function OpacityStep(cache: map<string, real>, marker: Marker, camera: Vec3, m: Math): (r: map<string, real>)
    ensures r == cache || r == cache[marker.city.name := MarkerOpacity(marker, camera, m)]
    ensures Abs(CachedOpacity(r, marker.city.name) - MarkerOpacity(marker, camera, m)) <= OpacityEpsilon
  {
    var opacity := MarkerOpacity(marker, camera, m);
    if Abs(CachedOpacity(cache, marker.city.name) - opacity) > OpacityEpsilon then cache[marker.city.name := opacity]
    else cache
  }

  /** One step writes the city's own key, and only when the cached value is
      more than 0.01 off; every other key keeps its value; afterwards the
      cached value is within 0.01 of the current opacity. */
  lemma OpacityStepWrites(cache: map<string, real>, marker: Marker, camera: Vec3, m: Math)
    ensures var name, opacity, r := marker.city.name, MarkerOpacity(marker, camera, m), OpacityStep(cache, marker, camera, m);
      && (Abs(CachedOpacity(cache, name) - opacity) > OpacityEpsilon ==> r == cache[name := opacity])
      && (Abs(CachedOpacity(cache, name) - opacity) <= OpacityEpsilon ==> r == cache)
      && Abs(CachedOpacity(r, name) - opacity) <= OpacityEpsilon
      && (forall k :: k != name ==> (k in r <==> k in cache) && (k in r ==> r[k] == cache[k]))
  {
  }

  /** A missing entry counts as 1, so a first frame whose opacity is within
      0.01 of 1 writes nothing. */
  lemma FirstFrameNearOne(cache: map<string, real>, marker: Marker, camera: Vec3, m: Math)
    requires marker.city.name !in cache
    requires MarkerOpacity(marker, camera, m) >= 1.0 - OpacityEpsilon
    ensures OpacityStep(cache, marker, camera, m) == cache
  {
  }

  /** The opacity cache after the frame pass has visited `markers` in order:
      no entry is ever removed. */
  function FrameOpacities(cache: map<string, real>, markers: seq<Marker>, camera: Vec3, m: Math): (r: map<string, real>)
    ensures cache.Keys <= r.Keys
    decreases |markers|
  {
    if markers == [] then cache
    else OpacityStep(FrameOpacities(cache, markers[..|markers| - 1], camera, m), markers[|markers| - 1], camera, m)
  }

  /** One marker of the frame pass, on the mesh cursor flags: only meshes
      already registered are written, the city's own flag becomes the cursor
      its distance calls for, and every other flag is kept. */
  function CursorStep(cursors: map<string, Option<Cursor>>, marker: Marker, camera: Vec3, m: Math): (r: map<string, Option<Cursor>>)
    ensures r.Keys == cursors.Keys
    ensures marker.city.name in cursors ==> r[marker.city.name] == Some(CursorFor(Distance(camera, marker.position, m)))
    ensures forall k :: k in cursors && k != marker.city.name ==> r[k] == cursors[k]
  {
    if marker.city.name in cursors then cursors[marker.city.name := Some(CursorFor(Distance(camera, marker.position, m)))]
    else cursors
  }

  /** The mesh cursor flags after the frame pass has visited `markers` in
      order: the pass registers no mesh and removes none. */
  function FrameCursors(cursors: map<string, Option<Cursor>>, markers: seq<Marker>, camera: Vec3, m: Math): (r: map<string, Option<Cursor>>)
    ensures r.Keys == cursors.Keys
    decreases |markers|
  {
    if markers == [] then cursors
    else CursorStep(FrameCursors(cursors, markers[..|markers| - 1], camera, m), markers[|markers| - 1], camera, m)
  }

  ghost predicate NamesDistinct(markers: seq<Marker>)
  {
    forall i, j :: 0 <= i < j < |markers| ==> markers[i].city.name != markers[j].city.name
  }

  ghost predicate Unlisted(markers: seq<Marker>, name: string)
  {
    forall i :: 0 <= i < |markers| ==> markers[i].city.name != name
  }

  /** Every cached opacity lies in [0.2, 1]. */
  ghost predicate CacheInRange(cache: map<string, real>)
  {
    forall k :: k in cache ==> 0.2 <= cache[k] <= 1.0
  }

  /** The frame pass leaves the entry of a name that is no city's alone. */
  lemma {:induction false} FrameKeepsUnlisted(cache: map<string, real>, markers: seq<Marker>, camera: Vec3, m: Math, name: string)
    requires Unlisted(markers, name)
    ensures name in FrameOpacities(cache, markers, camera, m) <==> name in cache
    ensures name in cache ==> FrameOpacities(cache, markers, camera, m)[name] == cache[name]
    decreases |markers|
  {
    if markers != [] {
      var init := markers[..|markers| - 1];
      assert Unlisted(init, name) by {
        forall i | 0 <= i < |init| ensures init[i].city.name != name { assert init[i] == markers[i]; }
      }
      FrameKeepsUnlisted(cache, init, camera, m, name);
      OpacityStepWrites(FrameOpacities(cache, init, camera, m), markers[|markers| - 1], camera, m);
    }
  }

  /** Every entry the frame pass adds is some visited city's. */
  lemma {:induction false} FrameAddsOnlyCities(cache: map<string, real>, markers: seq<Marker>, camera: Vec3, m: Math, name: string)
    requires name in FrameOpacities(cache, markers, camera, m) && name !in cache
    ensures exists i :: 0 <= i < |markers| && markers[i].city.name == name
    decreases |markers|
  {
    var n := |markers| - 1;
    var init := markers[..n];
    if name in FrameOpacities(cache, init, camera, m) {
      FrameAddsOnlyCities(cache, init, camera, m, name);
      var i :| 0 <= i < |init| && init[i].city.name == name;
      assert markers[i] == init[i];
    } else {
      OpacityStepWrites(FrameOpacities(cache, init, camera, m), markers[n], camera, m);
      assert markers[n].city.name == name;
    }
  }

  /** The frame pass only ever stores opacities in [0.2, 1]. */
  lemma {:induction false} FrameKeepsRange(cache: map<string, real>, markers: seq<Marker>, camera: Vec3, m: Math)
    requires CacheInRange(cache)
    ensures CacheInRange(FrameOpacities(cache, markers, camera, m))
    decreases |markers|
  {
    if markers != [] {
      var init := markers[..|markers| - 1];
      FrameKeepsRange(cache, init, camera, m);
      OpacityStepWrites(FrameOpacities(cache, init, camera, m), markers[|markers| - 1], camera, m);
    }
  }

  /** After a frame, with distinct city names, the cached opacity of every
      city is within 0.01 of the opacity its current distance calls for:
      skipping small writes never lets the cache drift further. */
  lemma {:induction false} FrameTracksOpacity(cache: map<string, real>, markers: seq<Marker>, camera: Vec3, m: Math)
    requires NamesDistinct(markers)
    ensures forall i :: 0 <= i < |markers| ==>
      Abs(CachedOpacity(FrameOpacities(cache, markers, camera, m), markers[i].city.name) - MarkerOpacity(markers[i], camera, m)) <= OpacityEpsilon
    decreases |markers|
  {
    if markers != [] {
      var n := |markers| - 1;
      var init, last := markers[..n], markers[n];
      var before := FrameOpacities(cache, init, camera, m);
      var after := FrameOpacities(cache, markers, camera, m);
      assert NamesDistinct(init) by {
        forall i, j | 0 <= i < j < |init| ensures init[i].city.name != init[j].city.name {
          assert init[i] == markers[i] && init[j] == markers[j];
        }
      }
      FrameTracksOpacity(cache, init, camera, m);
      assert after == OpacityStep(before, last, camera, m);
      forall i | 0 <= i < |markers|
        ensures Abs(CachedOpacity(after, markers[i].city.name) - MarkerOpacity(markers[i], camera, m)) <= OpacityEpsilon
      {
        if i < n {
          assert markers[i] == init[i];
          StepKeepsOthers(before, last, markers[i].city.name, camera, m);
        }
      }
    }
  }

  /** One step leaves the cached opacity of every other city as it was. */
  lemma StepKeepsOthers(cache: map<string, real>, marker: Marker, name: string, camera: Vec3, m: Math)
    requires name != marker.city.name
    ensures CachedOpacity(OpacityStep(cache, marker, camera, m), name) == CachedOpacity(cache, name)
  {
    OpacityStepWrites(cache, marker, camera, m);
  }

  /** After a frame, with distinct city names, every registered mesh of a
      city carries that city's classification, and the set of registered
      meshes is unchanged. */
  lemma {:induction false} FrameClassifies(cursors: map<string, Option<Cursor>>, markers: seq<Marker>, camera: Vec3, m: Math)
    requires NamesDistinct(markers)
    ensures FrameCursors(cursors, markers, camera, m).Keys == cursors.Keys
    ensures forall i :: 0 <= i < |markers| && markers[i].city.name in cursors ==>
      FrameCursors(cursors, markers, camera, m)[markers[i].city.name] == Some(CursorFor(Distance(camera, markers[i].position, m)))
    decreases |markers|
  {
    if markers != [] {
      var n := |markers| - 1;
      var init, last := markers[..n], markers[n];
      assert NamesDistinct(init) by {
        forall i, j | 0 <= i < j < |init| ensures init[i].city.name != init[j].city.name {
          assert init[i] == markers[i] && init[j] == markers[j];
        }
      }
      FrameClassifies(cursors, init, camera, m);
      forall i | 0 <= i < n && markers[i].city.name in cursors
        ensures FrameCursors(cursors, markers, camera, m)[markers[i].city.name] == Some(CursorFor(Distance(camera, markers[i].position, m)))
      {
        assert markers[i] == init[i];
        assert markers[i].city.name != last.city.name;
      }
    }
  }

  /** Visiting one more city extends both folds by one step. */
  lemma FrameExtends(cache: map<string, real>, cursors: map<string, Option<Cursor>>, markers: seq<Marker>, i: int, camera: Vec3, m: Math)
    requires 0 <= i < |markers|
    ensures FrameOpacities(cache, markers[..i + 1], camera, m) == OpacityStep(FrameOpacities(cache, markers[..i], camera, m), markers[i], camera, m)
    ensures FrameCursors(cursors, markers[..i + 1], camera, m) == CursorStep(FrameCursors(cursors, markers[..i], camera, m), markers[i], camera, m)
  {
    assert markers[..i + 1][..i] == markers[..i];
  }

  /** The marker layer's per-component state: the refs of `CityMarkers`. */
  class MarkerLayer {
    /** `cityData`, computed once. */
    const cityData: seq<Marker>
    /** `opacitiesRef`: the last opacity written per city name. */
    var opacities: map<string, real>
    /** `htmlRefsRef`: the names whose label element is mounted. */
    var labels: set<string>
    /** `markerRefsRef`: the names whose marker mesh is mounted, with the
        cursor flag stored on that mesh (None until the first frame sets it). */
    var cursors: map<string, Option<Cursor>>
    /** `timeoutIdsRef`: the rejection flashes still pending. */
    var timeouts: set<TimerId>

    constructor (cities: seq<City>, m: Math)
      ensures cityData == CityData(cities, m)
      ensures opacities == map[] && labels == {} && cursors == map[] && timeouts == {}
    {
      cityData := CityData(cities, m);
      opacities := map[];
      labels := {};
      cursors := map[];
      timeouts := {};
    }

    /** The label element's ref callback. */
    method RegisterLabel(name: string)
      modifies this
      ensures labels == old(labels) + {name}
      ensures opacities == old(opacities) && cursors == old(cursors) && timeouts == old(timeouts)
    {
      labels := labels + {name};
    }

    /** The marker mesh's ref callback; a mesh already registered keeps its flag. */
    method RegisterMarker(name: string)
      modifies this
      ensures cursors == if name in old(cursors) then old(cursors) else old(cursors)[name := None]
      ensures opacities == old(opacities) && labels == old(labels) && timeouts == old(timeouts)
    {
      if name !in cursors {
        cursors := cursors[name := None];
      }
    }

    /** The `useFrame` callback: every city in catalog order, rewriting its
        cached opacity when it moved by more than 0.01 and setting its mesh's
        cursor flag from the camera distance. */
    method Frame(camera: Vec3, m: Math)
      modifies this
      ensures opacities == FrameOpacities(old(opacities), cityData, camera, m)
      ensures cursors == FrameCursors(old(cursors), cityData, camera, m)
      ensures labels == old(labels) && timeouts == old(timeouts)
    {
      var i := 0;
      while i < |cityData|
        invariant 0 <= i <= |cityData|
        invariant opacities == FrameOpacities(old(opacities), cityData[..i], camera, m)
        invariant cursors == FrameCursors(old(cursors), cityData[..i], camera, m)
        invariant labels == old(labels) && timeouts == old(timeouts)
      {
        VisitCity(cityData[i], camera, m);
        FrameExtends(old(opacities), old(cursors), cityData, i, camera, m);
        i := i + 1;
      }
      assert cityData[..|cityData|] == cityData;
    }

    /** The `forEach` callback of the frame pass for one city. */
    method VisitCity(marker: Marker, camera: Vec3, m: Math)
      modifies this
      ensures opacities == OpacityStep(old(opacities), marker, camera, m)
      ensures cursors == CursorStep(old(cursors), marker, camera, m)
      ensures labels == old(labels) && timeouts == old(timeouts)
    {
      var name := marker.city.name;
      var distance := Distance(camera, marker.position, m);
      var opacity := CalculateOpacity(distance, FadeStart, FadeEnd).value;
      if Abs(CachedOpacity(opacities, name) - opacity) > OpacityEpsilon {
        opacities := opacities[name := opacity];
      }
      if name in cursors {
        cursors := cursors[name := Some(if distance > MinInteractionDistance then NotAllowed else Pointer)];
      }
    }

    /** `handleCityClick`: within reach the city is handed to the popup
        (the result); out of reach nothing is handed over and, when the
        label is mounted, its flash timer `id` joins the pending set. */
    method HandleCityClick(marker: Marker, camera: Vec3, m: Math, id: TimerId) returns (selected: Option<City>)
      requires id !in timeouts
      modifies this
      ensures selected.Some? <==> Distance(camera, marker.position, m) <= MinInteractionDistance
      ensures selected.Some? <==> CursorFor(Distance(camera, marker.position, m)) == Pointer
      ensures selected.Some? ==> selected.value == marker.city
      ensures timeouts == if selected.None? && marker.city.name in old(labels) then old(timeouts) + {id} else old(timeouts)
      ensures opacities == old(opacities) && labels == old(labels) && cursors == old(cursors)
    {
      var distance := Distance(camera, marker.position, m);
      if distance > MinInteractionDistance {
        if marker.city.name in labels {
          timeouts := timeouts + {id};
        }
        selected := None;
      } else {
        selected := Some(marker.city);
      }
    }

    /** The cone's hover handler: the flag stored on the city's marker mesh,
        or the pointer when the mesh is not registered or not yet classified. */
    function HoverCursorFor(name: string): (c: Cursor)
      reads this
      ensures name !in cursors ==> c == Pointer
      ensures name in cursors && cursors[name].None? ==> c == Pointer
      ensures name in cursors && cursors[name].Some? ==> c == cursors[name].value
    {
      HoverCursor(if name in cursors then cursors[name] else None)
    }

    /** The rejection flash's timeout firing: it removes exactly its own id. */
    method FlashExpired(id: TimerId)
      modifies this
      ensures timeouts == old(timeouts) - {id}
      ensures opacities == old(opacities) && labels == old(labels) && cursors == old(cursors)
    {
      timeouts := timeouts - {id};
    }

    /** The unmount cleanup: pending flashes are cancelled and both ref maps
        are emptied. */
    method Teardown()
      modifies this
      ensures timeouts == {} && labels == {} && cursors == map[]
      ensures opacities == old(opacities)
    {
      timeouts := {};
      labels := {};
      cursors := map[];
    }
  }

  /** A camera 11 units along x from a point is out of reach of it. */
  lemma OutOfReach(p: Vec3, m: Math)
    requires SqrtSpec(m)
    ensures Distance(Vec3(p.x + 11.0, p.y, p.z), p, m) > MinInteractionDistance
  {
    var far := Vec3(p.x + 11.0, p.y, p.z);
    assert far.x - p.x == 11.0 && far.y - p.y == 0.0 && far.z - p.z == 0.0;
    assert DistanceSquared(far, p) == 11.0 * 11.0 + 0.0 * 0.0 + 0.0 * 0.0;
    DistanceExceeds(far, p, MinInteractionDistance, m);
  }

  /** A far click with a mounted label records one more pending flash and
      hands nothing over; a near click hands the city over and records none. */
  method ClickScenario(cities: seq<City>, m: Math)
    requires SqrtSpec(m) && |cities| > 0
  {
    var layer := new MarkerLayer(cities, m);
    var marker := layer.cityData[0];
    layer.RegisterLabel(marker.city.name);
    var far := Vec3(marker.position.x + 11.0, marker.position.y, marker.position.z);
    OutOfReach(marker.position, m);
    var picked := layer.HandleCityClick(marker, far, m, 7);
    assert picked == None && layer.timeouts == {7};
    layer.FlashExpired(7);
    assert layer.timeouts == {};
    DistanceIsMetric(marker.position, marker.position, m);
    picked := layer.HandleCityClick(marker, marker.position, m, 8);
    assert picked == Some(marker.city) && layer.timeouts == {};
  }
}
