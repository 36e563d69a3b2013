/** utils/manim_config.py: the render quality tiers and the layout zones. */
module ManimConfig {

  datatype QualitySettings = QualitySettings(resolution: string, frameRate: nat, coordinatesScale: real, fontScale: real)

  /** The tier keys, lowest to highest quality. */
  const TierKeys: seq<string> := ["l", "m", "h", "p", "k"]

  const QualityTiers: map<string, QualitySettings> := map[
    "l" := QualitySettings("480p15", 15, 0.8, 0.9),
    "m" := QualitySettings("720p30", 30, 1.0, 1.0),
    "h" := QualitySettings("1080p60", 60, 1.2, 1.1),
    "p" := QualitySettings("1440p60", 60, 1.4, 1.2),
    "k" := QualitySettings("2160p60", 60, 1.6, 1.3)
  ]

  const DefaultTier: string := "m"

  /** `get_quality_config`: the tier's settings, the medium tier's for any
      other key. */
  function GetQualityConfig(key: string): (c: QualitySettings)
    ensures key in QualityTiers ==> c == QualityTiers[key]
    ensures key !in QualityTiers ==> c == QualityTiers[DefaultTier]
  {
    if key in QualityTiers then QualityTiers[key] else QualityTiers[DefaultTier]
  }

  /** The five keys are exactly the table's keys, all different. */
  lemma TierKeysAreTheTable()
    ensures QualityTiers.Keys == set k | k in TierKeys
    ensures forall i, j :: 0 <= i < j < |TierKeys| ==> TierKeys[i] != TierKeys[j]
  {
  }

  /** Frame rates are 15, 30, 60, 60, 60; both scales strictly increase
      from the lowest tier to the highest. */
  lemma TiersIncrease()
    ensures forall i :: 0 <= i < |TierKeys| ==> TierKeys[i] in QualityTiers
    ensures forall i, j :: 0 <= i < j < |TierKeys| ==>
      GetQualityConfig(TierKeys[i]).frameRate <= GetQualityConfig(TierKeys[j]).frameRate &&
      GetQualityConfig(TierKeys[i]).coordinatesScale < GetQualityConfig(TierKeys[j]).coordinatesScale &&
      GetQualityConfig(TierKeys[i]).fontScale < GetQualityConfig(TierKeys[j]).fontScale
  {
  }

  /** An unknown key renders like "m": 720p at 30 frames per second. */
  lemma UnknownKeyIsMedium(key: string)
    requires key !in TierKeys
    ensures GetQualityConfig(key) == QualitySettings("720p30", 30, 1.0, 1.0)
  {
    TierKeysAreTheTable();
  }

  /** An open interval of x coordinates. */
  datatype Zone = Zone(low: real, high: real)

  const LeftZone: Zone := Zone(-6.0, -1.0)
  const RightZone: Zone := Zone(1.0, 6.0)

  predicate InZone(x: real, z: Zone) {
    z.low < x < z.high
  }

  /** No x lies in both zones, and each is the other's mirror image. */
  lemma ZonesMirror(x: real)
    ensures !(InZone(x, LeftZone) && InZone(x, RightZone))
    ensures InZone(x, LeftZone) <==> InZone(-x, RightZone)
  {
  }
}
