/** The base/detail background switch (the `toggleDetailMap` button in Map/mapapp.js). */
module Tiles {

  /** The two tile sources: OpenStreetMap standard and OpenTopoMap. */
  datatype TileLayer = BaseTiles | DetailTiles

  /** The map is created with the standard tiles only. */
  const InitialLayers: set<TileLayer> := {BaseTiles}

  /** Exactly one background is shown. */
  predicate ExactlyOne(s: set<TileLayer>)
  {
    s == {BaseTiles} || s == {DetailTiles}
  }

  /** One click: if the base layer is on the map it is swapped for the detail layer,
      otherwise the detail layer is swapped for the base layer. */
  function Toggled(s: set<TileLayer>): (r: set<TileLayer>)
    ensures BaseTiles in s ==> BaseTiles !in r && DetailTiles in r
    ensures BaseTiles !in s ==> BaseTiles in r && DetailTiles !in r
  {
    if BaseTiles in s then s - {BaseTiles} + {DetailTiles} else s - {DetailTiles} + {BaseTiles}
  }

  /** A click keeps exactly one background and changes which one it is. */
  lemma ToggleKeepsExactlyOne(s: set<TileLayer>)
    requires ExactlyOne(s)
    ensures ExactlyOne(Toggled(s)) && Toggled(s) != s
  {
  }

  /** Two clicks restore the original background. */
  lemma ToggleTwice(s: set<TileLayer>)
    requires ExactlyOne(s)
    ensures Toggled(Toggled(s)) == s
  {
  }

  /** The layers after `n` clicks. */
  function ToggledTimes(s: set<TileLayer>, n: nat): set<TileLayer>
  {
    if n == 0 then s else Toggled(ToggledTimes(s, n - 1))
  }

  /** From start-up, the detail map is shown exactly after an odd number of clicks. */
  lemma {:induction false} ToggledTimesParity(n: nat)
    ensures ToggledTimes(InitialLayers, n) == if n % 2 == 0 then {BaseTiles} else {DetailTiles}
  {
    if n > 0 {
      ToggledTimesParity(n - 1);
    }
  }
}
