/**
 * The weather-code classifier of main.py (`WeatherApp.get_weather_emoji`):
 * an OpenWeatherMap condition id is mapped to a symbol by an ordered chain
 * of range tests, with an empty symbol for every id outside the bands.
 */
module Emoji {

  /** The symbols the classifier can produce; `Unknown` is the empty string. */
  datatype Symbol =
    | Thunderstorm | Drizzle | Rain | Snow | Fog
    | Ash | Squall | Tornado | Clear | Clouds
    | Unknown

  /** The condition-id chain exactly as written: first test that holds wins. */
  function Classify(id: int): (s: Symbol)
    ensures s != Unknown ==> 200 <= id <= 804
  {
    if 200 <= id <= 232 then Thunderstorm
    else if 300 <= id <= 321 then Drizzle
    else if 500 <= id <= 531 then Rain
    else if 600 <= id <= 622 then Snow
    else if 701 <= id <= 741 then Fog
    else if id == 762 then Ash
    else if id == 771 then Squall
    else if id == 781 then Tornado
    else if id == 800 then Clear
    else if 801 <= id <= 804 then Clouds
    else Unknown
  }

  /** The text the source returns for each symbol (emoji with their variation selectors). */
  function Glyph(s: Symbol): (g: string)
    ensures g == "" <==> s == Unknown
  {
    match s
    case Thunderstorm => "\U{26C8}\U{FE0F}"
    case Drizzle => "\U{1F329}\U{FE0F}"
    case Rain => "\U{1F327}\U{FE0F}"
    case Snow => "\U{2744}\U{FE0F}"
    case Fog => "\U{1F32B}\U{FE0F}"
    case Ash => "\U{1F30B}"
    case Squall => "\U{1F4A8}"
    case Tornado => "\U{1F32A}\U{FE0F}"
    case Clear => "\U{2600}\U{FE0F}"
    case Clouds => "\U{2601}\U{FE0F}"
    case Unknown => ""
  }

  /** Distinct symbols are shown as distinct text, so the text identifies the band. */
  lemma GlyphInjective(s: Symbol, t: Symbol)
    ensures Glyph(s) == Glyph(t) ==> s == t
  {
  }

  /** `get_weather_emoji`: total, and empty exactly for ids outside every band. */
  function WeatherEmoji(id: int): (e: string)
    ensures e == "" <==> !InSomeBand(Bands, id)
  {
    ClassifyUnknown(id);
    Glyph(Classify(id))
  }

  // ---------------------------------------------------------------------------
  // An independent description of the classifier: a table of closed bands.

  /** The closed range `lo..hi` of ids that all get `symbol`. */
  datatype Band = Band(lo: int, hi: int, symbol: Symbol)

  predicate InBand(id: int, b: Band)
  {
    b.lo <= id <= b.hi
  }

  predicate InSomeBand(t: seq<Band>, id: int)
  {
    exists k :: 0 <= k < |t| && InBand(id, t[k])
  }

  /** The bands of the classifier, in the order the chain tests them. */
  const Bands: seq<Band> := [
    Band(200, 232, Thunderstorm),
    Band(300, 321, Drizzle),
    Band(500, 531, Rain),
    Band(600, 622, Snow),
    Band(701, 741, Fog),
    Band(762, 762, Ash),
    Band(771, 771, Squall),
    Band(781, 781, Tornado),
    Band(800, 800, Clear),
    Band(801, 804, Clouds)
  ]

  /** Ordered lookup: the first band of `t` holding `id` decides; none gives `Unknown`. */
  function FirstMatch(t: seq<Band>, id: int): (s: Symbol)
    ensures !InSomeBand(t, id) ==> s == Unknown
    ensures InSomeBand(t, id) ==>
      exists k :: 0 <= k < |t| && InBand(id, t[k]) && s == t[k].symbol &&
        forall j :: 0 <= j < k ==> !InBand(id, t[j])
  {
    if t == [] then Unknown
    else if InBand(id, t[0]) then t[0].symbol
    else
      var s := FirstMatch(t[1..], id);
      assert InSomeBand(t, id) ==> InSomeBand(t[1..], id) by {
        if InSomeBand(t, id) {
          var k :| 0 <= k < |t| && InBand(id, t[k]);
          assert k != 0 && InBand(id, t[1..][k - 1]);
        }
      }
      assert InSomeBand(t[1..], id) ==> InSomeBand(t, id) by {
        if InSomeBand(t[1..], id) {
          var k :| 0 <= k < |t[1..]| && InBand(id, t[1..][k]);
          assert InBand(id, t[k + 1]);
        }
      }
      if InSomeBand(t, id) then
        var k :| 0 <= k < |t[1..]| && InBand(id, t[1..][k]) && s == t[1..][k].symbol &&
          forall j :: 0 <= j < k ==> !InBand(id, t[1..][j]);
        assert InBand(id, t[k + 1]) && s == t[k + 1].symbol;
        assert forall j :: 0 <= j < k + 1 ==> !InBand(id, t[j]) by {
          forall j | 0 <= j < k + 1
            ensures !InBand(id, t[j])
          {
            if j > 0 { assert t[j] == t[1..][j - 1]; }
          }
        }
        s
      else s
  }

  /** No id lies in two bands of `t`. */
  predicate Disjoint(t: seq<Band>)
  {
    forall i, j :: 0 <= i < j < |t| ==> t[i].hi < t[j].lo || t[j].hi < t[i].lo
  }

  /** Every band of `t` lies wholly above the one before it. */
  predicate Ascending(t: seq<Band>)
  {
    forall i :: 0 <= i < |t| ==> t[i].lo <= t[i].hi && (i + 1 < |t| ==> t[i].hi < t[i + 1].lo)
  }

  /** Ascending, non-empty bands never overlap. */
  lemma {:induction false} AscendingDisjoint(t: seq<Band>)
    requires Ascending(t)
    ensures Disjoint(t)
  {
    forall i, j | 0 <= i < j < |t| ensures t[i].hi < t[j].lo {
      AscendingGap(t, i, j);
    }
  }

  lemma {:induction false} AscendingGap(t: seq<Band>, i: int, j: int)
    requires Ascending(t) && 0 <= i < j < |t|
    ensures t[i].hi < t[j].lo
    decreases j - i
  {
    if i + 1 < j {
      AscendingGap(t, i + 1, j);
    }
  }

  /** The ten bands of the classifier are pairwise disjoint. */
  lemma BandsDisjoint()
    ensures Disjoint(Bands)
  {
    assert Ascending(Bands);
    AscendingDisjoint(Bands);
  }

  /** In a disjoint table, the band holding `id` decides, wherever it stands. */
  lemma {:induction false} DisjointFirstMatch(t: seq<Band>, id: int, k: int)
    requires Disjoint(t)
    requires 0 <= k < |t| && InBand(id, t[k])
    ensures FirstMatch(t, id) == t[k].symbol
  {
    if k == 0 {
    } else {
      assert !InBand(id, t[0]) by {
        assert t[0].hi < t[k].lo || t[k].hi < t[0].lo;
      }
      assert Disjoint(t[1..]) by {
        forall i, j | 0 <= i < j < |t[1..]|
          ensures t[1..][i].hi < t[1..][j].lo || t[1..][j].hi < t[1..][i].lo
        {
          assert t[1..][i] == t[i + 1] && t[1..][j] == t[j + 1];
        }
      }
      DisjointFirstMatch(t[1..], id, k - 1);
    }
  }

  /**
   * For disjoint tables the check order does not matter: any reordering of
   * the same bands classifies every id alike.
   */
  lemma OrderIrrelevant(t: seq<Band>, u: seq<Band>, id: int)
    requires Disjoint(t) && Disjoint(u)
    requires multiset(t) == multiset(u)
    ensures FirstMatch(t, id) == FirstMatch(u, id)
  {
    if k :| 0 <= k < |t| && InBand(id, t[k]) {
      assert t[k] in multiset(u);
      var m :| 0 <= m < |u| && u[m] == t[k];
      DisjointFirstMatch(t, id, k);
      DisjointFirstMatch(u, id, m);
    } else {
      forall m | 0 <= m < |u| ensures !InBand(id, u[m]) {
        assert u[m] in multiset(t);
      }
    }
  }

  /** The written chain is the ordered lookup in the band table. */
  lemma ClassifyIsTableLookup(id: int)
    ensures Classify(id) == FirstMatch(Bands, id)
  {
    BandsDisjoint();
    if k :| 0 <= k < |Bands| && InBand(id, Bands[k]) {
      DisjointFirstMatch(Bands, id, k);
      ClassifyBand(id, k);
    } else {
      assert forall k :: 0 <= k < |Bands| ==> !InBand(id, Bands[k]);
      assert !InBand(id, Bands[0]) && !InBand(id, Bands[1]) && !InBand(id, Bands[2]);
      assert !InBand(id, Bands[3]) && !InBand(id, Bands[4]) && !InBand(id, Bands[5]);
      assert !InBand(id, Bands[6]) && !InBand(id, Bands[7]) && !InBand(id, Bands[8]);
      assert !InBand(id, Bands[9]);
    }
  }

  /** Every id inside a band gets that band's symbol. */
  lemma ClassifyBand(id: int, k: int)
    requires 0 <= k < |Bands| && InBand(id, Bands[k])
    ensures Classify(id) == Bands[k].symbol
  {
  }

  /** An id maps to the empty symbol exactly when it lies outside every band. */
  lemma ClassifyUnknown(id: int)
    ensures Classify(id) == Unknown <==> !InSomeBand(Bands, id)
  {
    ClassifyIsTableLookup(id);
  }

  /** Thunderstorm is given to 200..232, both ends included, and to nothing else. */
  lemma ThunderstormBand(id: int)
    ensures Classify(id) == Thunderstorm <==> 200 <= id <= 232
  {
  }

  /** Each symbol other than `Unknown` is given exactly to the ids of its own band. */
  lemma ClassifyPreimage(id: int, k: int)
    requires 0 <= k < |Bands|
    ensures Classify(id) == Bands[k].symbol <==> InBand(id, Bands[k])
  {
    if InBand(id, Bands[k]) {
      ClassifyBand(id, k);
    }
  }

  /** Both ends of every band, the ids just outside each band, and negative and zero ids. */
  lemma Boundaries()
    ensures Classify(199) == Unknown && Classify(200) == Thunderstorm
    ensures Classify(231) == Thunderstorm && Classify(232) == Thunderstorm && Classify(233) == Unknown
    ensures Classify(299) == Unknown && Classify(300) == Drizzle && Classify(321) == Drizzle && Classify(322) == Unknown
    ensures Classify(499) == Unknown && Classify(500) == Rain && Classify(531) == Rain && Classify(532) == Unknown
    ensures Classify(599) == Unknown && Classify(600) == Snow && Classify(622) == Snow && Classify(623) == Unknown
    ensures Classify(700) == Unknown && Classify(701) == Fog && Classify(741) == Fog && Classify(742) == Unknown
    ensures Classify(761) == Unknown && Classify(762) == Ash && Classify(763) == Unknown
    ensures Classify(770) == Unknown && Classify(771) == Squall && Classify(772) == Unknown
    ensures Classify(780) == Unknown && Classify(781) == Tornado && Classify(782) == Unknown
    ensures Classify(799) == Unknown && Classify(800) == Clear
    ensures Classify(801) == Clouds && Classify(804) == Clouds && Classify(805) == Unknown
    ensures Classify(-1) == Unknown && Classify(0) == Unknown
  {
  }
}
