/** The marker store's values (`addMarker` and its `dragend`/`contextmenu` handlers in
    Map/mapapp.js): a marker is an identity, a coordinate and the two options Leaflet was
    given; the store is an ordered sequence of them. */
module Markers {
  import opened JsValues
  import opened Geo

  /** The title a marker gets when the caller gives none. */
  const DefaultTitle: string := "マーカー"

  /** The `options` argument of `addMarker`; `{}` when omitted. */
  datatype MarkerOptions = MarkerOptions(draggable: Option<bool>, title: Option<string>)

  const NoOptions: MarkerOptions := MarkerOptions(None, None)

  /** A Leaflet marker: `id` stands for the object's identity (what `!==` compares). */
  datatype Marker = Marker(id: nat, pos: LatLng, draggable: bool, title: string)

  /** The marker `addMarker` builds: `draggable: options.draggable || true`,
      `title: options.title || "マーカー"`. The first is true whatever the caller asked for. */
  function NewMarker(id: nat, pos: LatLng, opts: MarkerOptions): (m: Marker)
    ensures m.id == id && m.pos == pos
    ensures m.draggable
    ensures m.title != ""
    ensures opts.title.Some? && opts.title.value != "" ==> m.title == opts.title.value
    ensures opts.title.None? || opts.title.value == "" ==> m.title == DefaultTitle
  {
    Marker(id, pos, OrBool(opts.draggable, true), OrString(opts.title, DefaultTitle))
  }

  /** No two markers of the store share an identity. */
  ghost predicate UniqueIds(ms: seq<Marker>)
  {
    forall i, j :: 0 <= i < j < |ms| ==> ms[i].id != ms[j].id
  }

  /** `markers.map(m => m.getLatLng())`: the coordinates in list order. */
  function Coords(ms: seq<Marker>): (ps: seq<LatLng>)
    ensures |ps| == |ms|
  {
    seq(|ms|, i requires 0 <= i < |ms| => ms[i].pos)
  }

  /** The i-th stored or drawn coordinate is the i-th marker's position. */
  lemma CoordsAt(ms: seq<Marker>, i: nat)
    requires i < |ms|
    ensures Coords(ms)[i] == ms[i].pos
  {
  }

  /** Coordinates of a concatenation are the concatenated coordinates. */
  lemma CoordsAppend(ms: seq<Marker>, ns: seq<Marker>)
    ensures Coords(ms + ns) == Coords(ms) + Coords(ns)
  {
    assert forall i :: 0 <= i < |ms + ns| ==> Coords(ms + ns)[i] == (Coords(ms) + Coords(ns))[i];
  }

  /** A store whose identities are distinct and were all handed out before `next`. */
  ghost predicate IdsIssued(ms: seq<Marker>, next: nat)
  {
    UniqueIds(ms) && forall i :: 0 <= i < |ms| ==> ms[i].id < next
  }

  /** Appending a marker with the next identity keeps the store well formed, and that
      identity differs from every earlier one. */
  lemma AppendFresh(ms: seq<Marker>, next: nat, m: Marker)
    requires IdsIssued(ms, next) && m.id == next
    ensures IdsIssued(ms + [m], next + 1)
    ensures forall i :: 0 <= i < |ms| ==> ms[i].id != m.id
    ensures Coords(ms + [m]) == Coords(ms) + [m.pos]
  {
    var r := ms + [m];
    forall i, j | 0 <= i < j < |r| ensures r[i].id != r[j].id {
      assert r[i] == ms[i];
      if j < |ms| {
        assert r[j] == ms[j];
      } else {
        assert r[j] == m;
      }
    }
    CoordsAppend(ms, [m]);
  }

  /** The markers `loadMarkers` re-creates from the stored pairs `ps`, with identities
      handed out from `first` on: `addMarker([p.lat, p.lng], { draggable: true })` each. */
  function Restored(ps: seq<LatLng>, first: nat): (ms: seq<Marker>)
    ensures |ms| == |ps|
  {
    seq(|ps|, i requires 0 <= i < |ps| => Marker(first + i, ps[i], true, DefaultTitle))
  }

  /** Restored markers stand at the stored coordinates, in stored order, each draggable and
      carrying the default title. */
  lemma RestoredMarkers(ps: seq<LatLng>, first: nat)
    ensures Coords(Restored(ps, first)) == ps
    ensures forall i :: 0 <= i < |ps| ==>
              Restored(ps, first)[i] == Marker(first + i, ps[i], true, DefaultTitle)
  {
    var ms := Restored(ps, first);
    assert forall i :: 0 <= i < |ps| ==> Coords(ms)[i] == ps[i];
  }

  /** Restoring one more pair appends one more marker. */
  lemma RestoredSnoc(ps: seq<LatLng>, first: nat, i: nat)
    requires i < |ps|
    ensures Restored(ps[..i + 1], first) == Restored(ps[..i], first) + [Marker(first + i, ps[i], true, DefaultTitle)]
  {
    var a := Restored(ps[..i + 1], first);
    var b := Restored(ps[..i], first) + [Marker(first + i, ps[i], true, DefaultTitle)];
    assert forall j :: 0 <= j < i + 1 ==> a[j] == b[j];
  }

  /** Restoring after existing markers appends the stored coordinates, in order. */
  lemma RestoredAppend(before: seq<Marker>, ps: seq<LatLng>, first: nat)
    ensures Coords(before + Restored(ps, first)) == Coords(before) + ps
  {
    CoordsAppend(before, Restored(ps, first));
    RestoredMarkers(ps, first);
  }

  /** `markers.filter(m => m !== marker)` for the marker with identity `id`. */
  function Without(ms: seq<Marker>, id: nat): (r: seq<Marker>)
    ensures |r| <= |ms|
    ensures forall i :: 0 <= i < |r| ==> r[i].id != id
  {
    if ms == [] then []
    else if ms[0].id == id then Without(ms[1..], id)
    else [ms[0]] + Without(ms[1..], id)
  }

  /** Filtering out an identity nobody has changes nothing. */
  lemma {:induction false} WithoutAbsent(ms: seq<Marker>, id: nat)
    requires forall i :: 0 <= i < |ms| ==> ms[i].id != id
    ensures Without(ms, id) == ms
  {
    if ms != [] {
      WithoutAbsent(ms[1..], id);
      assert [ms[0]] + ms[1..] == ms;
    }
  }

  /** The markers after the first one still have distinct identities. */
  lemma UniqueTail(ms: seq<Marker>)
    requires UniqueIds(ms) && ms != []
    ensures UniqueIds(ms[1..])
  {
    var tail := ms[1..];
    forall i, j | 0 <= i < j < |tail| ensures tail[i].id != tail[j].id {
      assert tail[i] == ms[i + 1] && tail[j] == ms[j + 1];
    }
  }

  /** Right-click deletion removes exactly the clicked marker and keeps the order of the rest. */
  lemma {:induction false} WithoutRemovesOne(ms: seq<Marker>, k: nat)
    requires UniqueIds(ms) && k < |ms|
    ensures Without(ms, ms[k].id) == ms[..k] + ms[k + 1..]
  {
    var id := ms[k].id;
    var tail := ms[1..];
    if k == 0 {
      forall i | 0 <= i < |tail| ensures tail[i].id != id {
        assert tail[i] == ms[i + 1];
      }
      WithoutAbsent(tail, id);
    } else {
      UniqueTail(ms);
      assert tail[k - 1] == ms[k];
      WithoutRemovesOne(tail, k - 1);
      assert ms[0].id != id;
      assert Without(ms, id) == [ms[0]] + (tail[..k - 1] + tail[k..]);
      assert tail[..k - 1] == ms[1..k] && tail[k..] == ms[k + 1..];
      assert [ms[0]] + ms[1..k] == ms[..k];
    }
  }

  /** Cutting one marker out keeps the store well formed. */
  lemma RemoveAtIssued(ms: seq<Marker>, next: nat, k: nat)
    requires IdsIssued(ms, next) && k < |ms|
    ensures IdsIssued(ms[..k] + ms[k + 1..], next)
  {
    var r := ms[..k] + ms[k + 1..];
    assert forall i :: 0 <= i < |r| ==> r[i] == if i < k then ms[i] else ms[i + 1];
  }

  /** Deleting keeps the store well formed, whether or not the identity is present. */
  lemma WithoutIssued(ms: seq<Marker>, next: nat, id: nat)
    requires IdsIssued(ms, next)
    ensures IdsIssued(Without(ms, id), next)
  {
    if k :| 0 <= k < |ms| && ms[k].id == id {
      WithoutRemovesOne(ms, k);
      RemoveAtIssued(ms, next, k);
    } else {
      WithoutAbsent(ms, id);
    }
  }

  /** A `dragend` on the marker `id`: that marker now stands at `pos`, all else is as before. */
  function Moved(ms: seq<Marker>, id: nat, pos: LatLng): (r: seq<Marker>)
    ensures |r| == |ms|
    ensures forall i :: 0 <= i < |ms| ==>
              r[i].id == ms[i].id && r[i].draggable == ms[i].draggable && r[i].title == ms[i].title
    ensures forall i :: 0 <= i < |ms| ==> r[i].pos == if ms[i].id == id then pos else ms[i].pos
  {
    seq(|ms|, i requires 0 <= i < |ms| => if ms[i].id == id then ms[i].(pos := pos) else ms[i])
  }

  /** A drag changes no identity. */
  lemma MovedUnique(ms: seq<Marker>, id: nat, pos: LatLng)
    requires UniqueIds(ms)
    ensures UniqueIds(Moved(ms, id, pos))
  {
  }

  /** With unique identities a drag moves exactly one marker, in place. */
  lemma MovedOne(ms: seq<Marker>, k: nat, pos: LatLng)
    requires UniqueIds(ms) && k < |ms|
    ensures Moved(ms, ms[k].id, pos) == ms[k := ms[k].(pos := pos)]
    ensures Coords(Moved(ms, ms[k].id, pos)) == Coords(ms)[k := pos]
  {
    var r := Moved(ms, ms[k].id, pos);
    assert r == ms[k := ms[k].(pos := pos)];
    assert forall i :: 0 <= i < |ms| ==> Coords(r)[i] == Coords(ms)[k := pos][i];
  }
}
