/** Volume: the left/right setting kept in the configuration store and the
    device gain derived from it. */
module Volume {

  datatype StereoVolume = StereoVolume(left: int, right: int)

  /** The plugin's section of the configuration store. */
  type Settings = map<string, int>

  /** Decibels spanned by the volume scale from 100 down to 1. */
  const VOLUME_RANGE: int := 40

  /** The values the plugin registers as its defaults. */
  const DEFAULTS: Settings := map["vol_left" := 100, "vol_right" := 100]

  /** Reading an integer: the stored value, else the registered default,
      else 0. */
  function GetInt(s: Settings, key: string): (r: int)
    ensures key in s ==> r == s[key]
    ensures key !in s && key in {"vol_left", "vol_right"} ==> r == 100
    ensures key !in s && key !in DEFAULTS ==> r == 0
  {
    if key in s then s[key] else if key in DEFAULTS then DEFAULTS[key] else 0
  }

  /** What `get_volume` reads: each channel's stored value, or 100 when
      none is stored. */
  function StoredVolume(s: Settings): (v: StereoVolume)
    ensures v.left == if "vol_left" in s then s["vol_left"] else 100
    ensures v.right == if "vol_right" in s then s["vol_right"] else 100
  {
    StereoVolume(GetInt(s, "vol_left"), GetInt(s, "vol_right"))
  }

  /** What `set_volume` writes: the two volume keys and nothing else. */
  function StoreVolume(s: Settings, v: StereoVolume): (r: Settings)
    ensures r.Keys == s.Keys + {"vol_left", "vol_right"}
    ensures forall k :: k in s && k != "vol_left" && k != "vol_right" ==> r[k] == s[k]
  {
    s["vol_left" := v.left]["vol_right" := v.right]
  }

  /** The louder of the two channels. */
  function MaxVolume(v: StereoVolume): (m: int)
    ensures m >= v.left && m >= v.right
    ensures m == v.left || m == v.right
  {
    if v.left >= v.right then v.left else v.right
  }

  /** The device gain: silence, or the linear factor 10 to the power
      `exponent`. */
  datatype Gain = Silent | PowerOfTen(exponent: real)

  /** The gain `set_volume` hands to the device. */
  function GainFor(v: StereoVolume): (g: Gain)
    ensures g.Silent? <==> MaxVolume(v) == 0
  {
    var volMax := MaxVolume(v);
    if volMax == 0 then Silent
    else PowerOfTen((VOLUME_RANGE as real) * ((volMax - 100) as real) / 100.0 / 20.0)
  }

  /** Storing a volume and reading it back gives the same volume, and the rest
      of the store is untouched. */
  lemma VolumeRoundTrip(s: Settings, v: StereoVolume)
    ensures StoredVolume(StoreVolume(s, v)) == v
    ensures forall k :: k != "vol_left" && k != "vol_right" ==> GetInt(StoreVolume(s, v), k) == GetInt(s, k)
  {
  }

  /** Full volume is unity gain; every volume from 1 to 100 gives a gain
      between 1/100 (exclusive) and 1, larger for a louder setting. */
  lemma GainRange(v: StereoVolume, w: StereoVolume)
    requires 0 < MaxVolume(v) <= 100
    ensures MaxVolume(v) == 100 ==> GainFor(v) == PowerOfTen(0.0)
    ensures -2.0 < GainFor(v).exponent <= 0.0
    ensures MaxVolume(v) <= MaxVolume(w) ==> GainFor(v).exponent <= GainFor(w).exponent
  {
  }
}
